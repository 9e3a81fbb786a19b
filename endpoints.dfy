/**
 * The marketplace endpoints: each builds a path and the options of one `request` call.
 * `createListing` and `updateListing` fill a FormData by repeated `append`, which is
 * modelled as the list of its entries; `fd.getAll(name)` is `GetAll`.
 */
module Endpoints {
  import opened Strings
  import opened Json
  import opened Wrappers
  import opened RequestLoop

  /** A browser `File` chosen by the user. */
  datatype File = File(name: string)

  /**
   * A JavaScript value handed to an endpoint: `undefined`, a JSON-like value, a `File`,
   * or an array of `File`s.
   */
  datatype Value = Undefined | Plain(json: Json) | Blob(file: File) | FileArray(files: seq<File>)

  predicate TruthyValue(v: Value) {
    match v
    case Undefined => false
    case Plain(j) => Truthy(j)
    case Blob(_) => true
    case FileArray(_) => true
  }

  /** `v == null` (loose equality): `null` or `undefined`. */
  predicate Nullish(v: Value) {
    v.Undefined? || v == Plain(JNull)
  }

  /** `Array.isArray(v)` */
  predicate IsArray(v: Value) {
    v.FileArray? || (v.Plain? && v.json.JArray?)
  }

  /** `typeof v === "object"` (true of `null` as well). */
  predicate IsObject(v: Value) {
    match v
    case Undefined => false
    case Plain(j) => j.JNull? || j.JArray? || j.JObject?
    case Blob(_) => true
    case FileArray(_) => true
  }

  /** The elements `forEach` visits. */
  function Elements(v: Value): seq<Value>
    requires IsArray(v)
  {
    if v.FileArray? then seq(|v.files|, i requires 0 <= i < |v.files| => Blob(v.files[i]))
    else seq(|v.json.items|, i requires 0 <= i < |v.json.items| => Plain(v.json.items[i]))
  }

  /** `String(v)` */
  function Text(v: Value): string {
    match v
    case Undefined => "undefined"
    case Plain(j) => Display(j)
    case Blob(_) => "[object File]"
    case FileArray(fs) => Join(seq(|fs|, i => "[object File]"), ",")
  }

  // ---------------------------------------------------------------------------
  // FormData

  datatype FormValue = TextPart(text: string) | FilePart(file: File)

  datatype FormEntry = FormEntry(name: string, value: FormValue)

  /** What `fd.append(name, v)` stores: a Blob as a file, anything else as `String(v)`. */
  function Part(v: Value): (p: FormValue)
    ensures p.FilePart? <==> v.Blob?
  {
    if v.Blob? then FilePart(v.file) else TextPart(Text(v))
  }

  /** `fd.getAll(name)`: the values appended under `name`, in order. */
  function GetAll(fd: seq<FormEntry>, name: string): (vs: seq<FormValue>)
    ensures |vs| <= |fd|
  {
    if fd == [] then []
    else (if fd[0].name == name then [fd[0].value] else []) + GetAll(fd[1..], name)
  }

  lemma {:induction false} GetAllConcat(a: seq<FormEntry>, b: seq<FormEntry>, name: string)
    ensures GetAll(a + b, name) == GetAll(a, name) + GetAll(b, name)
  {
    if a == [] {
      assert a + b == b;
    } else {
      var ab := a + b;
      var head := if a[0].name == name then [a[0].value] else [];
      assert ab[0] == a[0] && ab[1..] == a[1..] + b;
      GetAllConcat(a[1..], b, name);
      assert GetAll(ab, name) == head + GetAll(ab[1..], name);
      assert GetAll(a, name) == head + GetAll(a[1..], name);
      assert head + (GetAll(a[1..], name) + GetAll(b, name)) == (head + GetAll(a[1..], name)) + GetAll(b, name);
    }
  }

  /** A JavaScript object, as its `Object.entries`. */
  type Entries = seq<(string, Value)>

  /** Property keys of an object are distinct. */
  predicate UniqueKeys(obj: Entries) {
    forall i, j :: 0 <= i < j < |obj| ==> obj[i].0 != obj[j].0
  }

  predicate HasKey(obj: Entries, key: string) {
    exists i :: 0 <= i < |obj| && obj[i].0 == key
  }

  /** `obj[key]`: `undefined` when absent. */
  function Get(obj: Entries, key: string): (v: Value)
    ensures !HasKey(obj, key) ==> v == Undefined
  {
    if obj == [] then Undefined
    else if obj[0].0 == key then obj[0].1
    else Get(obj[1..], key)
  }

  /** One `fd.append(name, item)` per item, in order. */
  function Appends(name: string, items: seq<Value>): seq<FormEntry>
  {
    seq(|items|, i requires 0 <= i < |items| => FormEntry(name, Part(items[i])))
  }

  /** `items.forEach((f) => fd.append(name, f))` */
  method AppendEach(fd: seq<FormEntry>, name: string, items: seq<Value>) returns (fd': seq<FormEntry>)
    ensures fd' == fd + Appends(name, items)
  {
    fd' := fd;
    var i := 0;
    while i < |items|
      invariant 0 <= i <= |items|
      invariant fd' == fd + Appends(name, items[..i])
    {
      assert Appends(name, items[..i + 1]) == Appends(name, items[..i]) + [FormEntry(name, Part(items[i]))];
      fd' := fd' + [FormEntry(name, Part(items[i]))];
      i := i + 1;
    }
    assert items[..i] == items;
  }

  /** `fd.getAll(name)` after appending each item under one name. */
  lemma {:induction false} GetAllAppends(key: string, items: seq<Value>, name: string)
    ensures key == name ==> GetAll(Appends(key, items), name) == seq(|items|, i requires 0 <= i < |items| => Part(items[i]))
    ensures key != name ==> GetAll(Appends(key, items), name) == []
    decreases |items|
  {
    if items != [] {
      assert Appends(key, items)[1..] == Appends(key, items[1..]);
      GetAllAppends(key, items[1..], name);
    }
  }

  function Optional(present: bool, e: FormEntry): seq<FormEntry> {
    if present then [e] else []
  }

  /** What `fd.getAll(name)` collects from an optional `append(key, value)`. */
  function Collected(present: bool, key: string, p: FormValue, name: string): seq<FormValue> {
    if present && key == name then [p] else []
  }

  lemma GetAllOptional(present: bool, e: FormEntry, name: string)
    ensures GetAll(Optional(present, e), name) == Collected(present, e.name, e.value, name)
  {
    if present {
      assert Optional(present, e)[1..] == [];
    }
  }

  lemma GetAllGroups(a: seq<FormEntry>, b: seq<FormEntry>, c: seq<FormEntry>, d: seq<FormEntry>,
               e: seq<FormEntry>, f: seq<FormEntry>, g: seq<FormEntry>, name: string)
    ensures GetAll(a + b + c + d + e + f + g, name)
      == GetAll(a, name) + GetAll(b, name) + GetAll(c, name) + GetAll(d, name) + GetAll(e, name) + GetAll(f, name) + GetAll(g, name)
  {
    GetAllConcat(a, b, name);
    GetAllConcat(a + b, c, name);
    GetAllConcat(a + b + c, d, name);
    GetAllConcat(a + b + c + d, e, name);
    GetAllConcat(a + b + c + d + e, f, name);
    GetAllConcat(a + b + c + d + e + f, g, name);
  }

  /**
   * The fields `createListing` reads from its form object
   * `{ title, description, price, currency, category, metadata, files }`.
   */
  datatype ListingForm = ListingForm(
    title: Value, description: Value, price: Value, currency: Value,
    category: Value, metadata: Value, files: Value)

  /** `if (v) fd.append(key, v)` */
  function IfTruthy(key: string, v: Value): seq<FormEntry> {
    Optional(TruthyValue(v), FormEntry(key, Part(v)))
  }

  /** `if (files && Array.isArray(files)) files.forEach((f) => fd.append("files", f))` */
  function FilesOf(files: Value): seq<FormEntry> {
    if TruthyValue(files) && IsArray(files) then Appends("files", Elements(files)) else []
  }

  /** The entries `createListing` appends, in order. */
  function CreateListingEntries(form: ListingForm, stringify: Value -> string): seq<FormEntry> {
    IfTruthy("title", form.title) + IfTruthy("description", form.description)
    + Optional(!Nullish(form.price), FormEntry("price", TextPart(Text(form.price))))
    + IfTruthy("currency", form.currency) + IfTruthy("category", form.category)
    + Optional(TruthyValue(form.metadata), FormEntry("metadata", TextPart(stringify(form.metadata))))
    + FilesOf(form.files)
  }

  /** `if (present) fd.append(e.name, e.value)` */
  method AppendIf(fd: seq<FormEntry>, present: bool, e: FormEntry) returns (fd': seq<FormEntry>)
    ensures fd' == fd + Optional(present, e)
  {
    fd' := fd;
    if present {
      fd' := fd' + [e];
    }
  }

  /** The FormData of `createListing`, filled one `append` at a time. */
  method CreateListingForm(form: ListingForm, stringify: Value -> string) returns (fd: seq<FormEntry>)
    ensures fd == CreateListingEntries(form, stringify)
  {
    fd := AppendIf([], TruthyValue(form.title), FormEntry("title", Part(form.title)));
    assert fd == IfTruthy("title", form.title);
    fd := AppendIf(fd, TruthyValue(form.description), FormEntry("description", Part(form.description)));
    fd := AppendIf(fd, !Nullish(form.price), FormEntry("price", TextPart(Text(form.price))));
    fd := AppendIf(fd, TruthyValue(form.currency), FormEntry("currency", Part(form.currency)));
    fd := AppendIf(fd, TruthyValue(form.category), FormEntry("category", Part(form.category)));
    fd := AppendIf(fd, TruthyValue(form.metadata), FormEntry("metadata", TextPart(stringify(form.metadata))));
    ghost var fields := fd;
    if TruthyValue(form.files) && IsArray(form.files) {
      fd := AppendEach(fd, "files", Elements(form.files));
    } else {
      assert fd == fields + FilesOf(form.files);
    }
  }

  /** The field names of `createListing` that have the same length still differ. */
  lemma FieldNamesDiffer()
    ensures "title" != "price" && "title" != "files" && "price" != "files"
    ensures "currency" != "category" && "currency" != "metadata" && "category" != "metadata"
  {
    assert "title"[0] != "price"[0] && "title"[0] != "files"[0] && "price"[0] != "files"[0];
    assert "currency"[1] != "category"[1] && "currency"[0] != "metadata"[0] && "category"[0] != "metadata"[0];
  }

  /** `fd.getAll(name)` for the FormData of `createListing`, one appended field after another. */
  lemma CreateListingGetAll(form: ListingForm, stringify: Value -> string, name: string)
    ensures GetAll(CreateListingEntries(form, stringify), name)
        == Collected(TruthyValue(form.title), "title", Part(form.title), name)
           + Collected(TruthyValue(form.description), "description", Part(form.description), name)
           + Collected(!Nullish(form.price), "price", TextPart(Text(form.price)), name)
           + Collected(TruthyValue(form.currency), "currency", Part(form.currency), name)
           + Collected(TruthyValue(form.category), "category", Part(form.category), name)
           + Collected(TruthyValue(form.metadata), "metadata", TextPart(stringify(form.metadata)), name)
           + GetAll(FilesOf(form.files), name)
  {
    GetAllGroups(IfTruthy("title", form.title), IfTruthy("description", form.description),
           Optional(!Nullish(form.price), FormEntry("price", TextPart(Text(form.price)))),
           IfTruthy("currency", form.currency), IfTruthy("category", form.category),
           Optional(TruthyValue(form.metadata), FormEntry("metadata", TextPart(stringify(form.metadata)))),
           FilesOf(form.files), name);
    GetAllOptional(TruthyValue(form.title), FormEntry("title", Part(form.title)), name);
    GetAllOptional(TruthyValue(form.description), FormEntry("description", Part(form.description)), name);
    GetAllOptional(!Nullish(form.price), FormEntry("price", TextPart(Text(form.price))), name);
    GetAllOptional(TruthyValue(form.currency), FormEntry("currency", Part(form.currency)), name);
    GetAllOptional(TruthyValue(form.category), FormEntry("category", Part(form.category)), name);
    GetAllOptional(TruthyValue(form.metadata), FormEntry("metadata", TextPart(stringify(form.metadata))), name);
  }

  /** The values of the "files" entries of an array. */
  function FileParts(v: Value): seq<FormValue>
    requires IsArray(v)
  {
    seq(|Elements(v)|, i requires 0 <= i < |Elements(v)| => Part(Elements(v)[i]))
  }

  /** Only "files" entries come from the files array: one per element, none under another name. */
  lemma GetAllFilesOf(files: Value, name: string)
    ensures name == "files" ==> GetAll(FilesOf(files), name) == if IsArray(files) then FileParts(files) else []
    ensures name != "files" ==> GetAll(FilesOf(files), name) == []
  {
    if TruthyValue(files) && IsArray(files) {
      GetAllAppends("files", Elements(files), name);
    }
  }

  /** The names of the fields `createListing` appends only when truthy, as they are given. */
  predicate IsTextField(key: string) {
    key == "title" || key == "description" || key == "currency" || key == "category"
  }

  function TextField(form: ListingForm, key: string): Value
    requires IsTextField(key)
  {
    if key == "title" then form.title
    else if key == "description" then form.description
    else if key == "currency" then form.currency
    else form.category
  }

  /** `fd.getAll(key)` for a text field of `createListing`: the field once when truthy, nothing otherwise. */
  lemma CreateListingTextField(form: ListingForm, stringify: Value -> string, key: string)
    requires IsTextField(key)
    ensures GetAll(CreateListingEntries(form, stringify), key)
      == if TruthyValue(TextField(form, key)) then [Part(TextField(form, key))] else []
  {
    FieldNamesDiffer();
    GetAllFilesOf(form.files, key);
    CreateListingGetAll(form, stringify, key);
    TextFieldCollected(form, stringify, key);
  }

  /** Of the six optional fields of `createListing`, a text field's name collects only that field. */
  lemma TextFieldCollected(form: ListingForm, stringify: Value -> string, key: string)
    requires IsTextField(key)
    ensures Collected(TruthyValue(form.title), "title", Part(form.title), key)
            + Collected(TruthyValue(form.description), "description", Part(form.description), key)
            + Collected(!Nullish(form.price), "price", TextPart(Text(form.price)), key)
            + Collected(TruthyValue(form.currency), "currency", Part(form.currency), key)
            + Collected(TruthyValue(form.category), "category", Part(form.category), key)
            + Collected(TruthyValue(form.metadata), "metadata", TextPart(stringify(form.metadata)), key)
         == if TruthyValue(TextField(form, key)) then [Part(TextField(form, key))] else []
  {
    FieldNamesDiffer();
  }

  /**
   * `fd.getAll("price")` for `createListing`: the price as `String(price)` unless it is null
   * or undefined, so a price of 0 is sent.
   */
  lemma CreateListingPrice(form: ListingForm, stringify: Value -> string)
    ensures GetAll(CreateListingEntries(form, stringify), "price")
      == if Nullish(form.price) then [] else [TextPart(Text(form.price))]
  {
    FieldNamesDiffer();
    CreateListingGetAll(form, stringify, "price");
    GetAllFilesOf(form.files, "price");
  }

  /** `fd.getAll("metadata")` for `createListing`: the metadata as its JSON text when truthy. */
  lemma CreateListingMetadata(form: ListingForm, stringify: Value -> string)
    ensures GetAll(CreateListingEntries(form, stringify), "metadata")
      == if TruthyValue(form.metadata) then [TextPart(stringify(form.metadata))] else []
  {
    FieldNamesDiffer();
    CreateListingGetAll(form, stringify, "metadata");
    GetAllFilesOf(form.files, "metadata");
  }

  /** `fd.getAll("files")` for `createListing`: one value per element of an array, nothing otherwise. */
  lemma CreateListingFiles(form: ListingForm, stringify: Value -> string)
    ensures GetAll(CreateListingEntries(form, stringify), "files") == if IsArray(form.files) then FileParts(form.files) else []
  {
    FieldNamesDiffer();
    CreateListingGetAll(form, stringify, "files");
    GetAllFilesOf(form.files, "files");
  }

  /** `createListing` appends under no other name. */
  lemma CreateListingOtherNames(form: ListingForm, stringify: Value -> string, name: string)
    requires name !in ["title", "description", "price", "currency", "category", "metadata", "files"]
    ensures GetAll(CreateListingEntries(form, stringify), name) == []
  {
    FieldNamesDiffer();
    CreateListingGetAll(form, stringify, name);
    GetAllFilesOf(form.files, name);
  }

  /** What `updateListing` appends for one entry `[k, v]` of the updates. */
  function UpdateEntry(k: string, v: Value, stringify: Value -> string): seq<FormEntry> {
    if k == "files" && IsArray(v) then Appends("files", Elements(v))
    else if !Nullish(v) then [FormEntry(k, if IsObject(v) then TextPart(stringify(v)) else Part(v))]
    else []
  }

  /** The entries `updateListing` appends, entry after entry of the updates. */
  function UpdateEntries(updates: Entries, stringify: Value -> string): seq<FormEntry> {
    if updates == [] then []
    else UpdateEntries(updates[..|updates| - 1], stringify)
         + UpdateEntry(updates[|updates| - 1].0, updates[|updates| - 1].1, stringify)
  }

  /** The FormData of `updateListing`: `Object.entries(updates).forEach`, with a nested `forEach` over the files. */
  method UpdateListingForm(updates: Entries, stringify: Value -> string) returns (fd: seq<FormEntry>)
    ensures fd == UpdateEntries(updates, stringify)
  {
    fd := [];
    var i := 0;
    while i < |updates|
      invariant 0 <= i <= |updates|
      invariant fd == UpdateEntries(updates[..i], stringify)
    {
      var (k, v) := updates[i];
      ghost var before := fd;
      if k == "files" && IsArray(v) {
        fd := AppendEach(fd, "files", Elements(v));
      } else if !Nullish(v) {
        fd := fd + [FormEntry(k, if IsObject(v) then TextPart(stringify(v)) else Part(v))];
      }
      assert fd == before + UpdateEntry(k, v, stringify);
      assert updates[..i + 1][..i] == updates[..i];
      assert UpdateEntries(updates[..i + 1], stringify) == UpdateEntries(updates[..i], stringify) + UpdateEntry(k, v, stringify);
      i := i + 1;
    }
    assert updates[..|updates|] == updates;
  }

  /** An entry appends only under its own key: an array under "files" is appended under "files" too. */
  lemma {:induction false} GetAllUpdateEntry(k: string, v: Value, stringify: Value -> string, name: string)
    ensures k != name ==> GetAll(UpdateEntry(k, v, stringify), name) == []
  {
    if k == "files" && IsArray(v) {
      GetAllAppends("files", Elements(v), name);
    }
  }

  /**
   * Every key of the updates contributes to `fd.getAll(key)` on its own: what `getAll`
   * returns for a key is what that key's value alone appends.
   */
  lemma {:induction false} UpdateListingGetAll(updates: Entries, stringify: Value -> string, key: string)
    requires UniqueKeys(updates)
    ensures GetAll(UpdateEntries(updates, stringify), key) == GetAll(UpdateEntry(key, Get(updates, key), stringify), key)
    decreases |updates|
  {
    if updates != [] {
      var init := updates[..|updates| - 1];
      var (k, v) := updates[|updates| - 1];
      UniqueInit(updates, key);
      UpdateListingGetAll(init, stringify, key);
      GetAllConcat(UpdateEntries(init, stringify), UpdateEntry(k, v, stringify), key);
      GetLast(updates, key);
      GetAllUpdateEntry(k, v, stringify, key);
    }
  }

  /** All but the last entry of an object have distinct keys, none of them the last one's. */
  lemma UniqueInit(obj: Entries, key: string)
    requires obj != [] && UniqueKeys(obj)
    ensures UniqueKeys(obj[..|obj| - 1])
    ensures obj[|obj| - 1].0 == key ==> !HasKey(obj[..|obj| - 1], key)
  {
    var init := obj[..|obj| - 1];
    forall i | 0 <= i < |init| ensures init[i] == obj[i] && init[i].0 != obj[|obj| - 1].0 {
    }
  }

  /** Looking a key up in an object agrees with looking it up in all but its last entry, or in that entry. */
  lemma {:induction false} GetLast(obj: Entries, key: string)
    requires obj != [] && UniqueKeys(obj)
    ensures var init := obj[..|obj| - 1];
      Get(obj, key) == if obj[|obj| - 1].0 == key then obj[|obj| - 1].1 else Get(init, key)
    decreases |obj|
  {
    var init := obj[..|obj| - 1];
    if |obj| > 1 {
      if obj[0].0 != key {
        assert obj[1..][..|obj[1..]| - 1] == init[1..];
        assert UniqueKeys(obj[1..]) by {
          forall i, j | 0 <= i < j < |obj[1..]| ensures obj[1..][i].0 != obj[1..][j].0 {
            assert obj[1..][i] == obj[i + 1] && obj[1..][j] == obj[j + 1];
          }
        }
        GetLast(obj[1..], key);
      } else {
        assert obj[0].0 != obj[|obj| - 1].0;
      }
    }
  }

  // ---------------------------------------------------------------------------
  // Paths and calls

  /** The body of a request: none, a FormData, or a plain object sent as JSON. */
  datatype Body = NoBody | FormBody(entries: seq<FormEntry>) | ObjectBody(fields: Entries)

  /** The options object of `request`, the timeout aside. */
  datatype Options = Options(httpMethod: string, headers: Headers, body: Body, retries: int, expectJson: bool)

  /** `request`'s defaults: no headers, no body, 2 retries, a JSON answer expected. */
  function WithDefaults(httpMethod: string, body: Body): Options {
    Options(httpMethod, map[], body, 2, true)
  }

  datatype ApiCall = ApiCall(path: string, options: Options)

  const ListingsRoot: string := "/api/marketplace/listings"

  /** The listings path, with `?qs` only when the query string is non-empty. */
  function ListingsPath(qs: string): (path: string)
    ensures qs == "" ==> path == ListingsRoot
    ensures qs != "" ==> |path| == |ListingsRoot| + 1 + |qs| && path[..|ListingsRoot|] == ListingsRoot
                         && path[|ListingsRoot|] == '?' && path[|ListingsRoot| + 1..] == qs
  {
    ListingsRoot + (if qs != "" then "?" + qs else "")
  }

  /** `/api/marketplace/listings/${listingId}` */
  function ListingPath(listingId: Value): string {
    ListingsRoot + "/" + Text(listingId)
  }

  /** `getListings(params)`; `encode` is `new URLSearchParams(params).toString()`. */
  function GetListings(params: Entries, encode: Entries -> string): ApiCall {
    ApiCall(ListingsPath(encode(params)), WithDefaults("GET", NoBody))
  }

  function GetListing(listingId: Value): ApiCall {
    ApiCall(ListingPath(listingId), WithDefaults("GET", NoBody))
  }

  method CreateListing(form: ListingForm, stringify: Value -> string) returns (call: ApiCall)
    ensures call == ApiCall(ListingsRoot, WithDefaults("POST", FormBody(CreateListingEntries(form, stringify))))
  {
    var fd := CreateListingForm(form, stringify);
    call := ApiCall(ListingsRoot, WithDefaults("POST", FormBody(fd)));
  }

  /** `updateListing`: a FormData when `updates.files` is truthy, the updates object as JSON otherwise. */
  method UpdateListing(listingId: Value, updates: Entries, stringify: Value -> string) returns (call: ApiCall)
    ensures call.path == ListingPath(listingId) && call.options.httpMethod == "PUT"
    ensures TruthyValue(Get(updates, "files")) ==> call.options.body == FormBody(UpdateEntries(updates, stringify))
    ensures !TruthyValue(Get(updates, "files")) ==> call.options.body == ObjectBody(updates)
    ensures call.options == WithDefaults("PUT", call.options.body)
  {
    if TruthyValue(Get(updates, "files")) {
      var fd := UpdateListingForm(updates, stringify);
      return ApiCall(ListingPath(listingId), WithDefaults("PUT", FormBody(fd)));
    }
    return ApiCall(ListingPath(listingId), WithDefaults("PUT", ObjectBody(updates)));
  }

  function DeleteListing(listingId: Value): ApiCall {
    ApiCall(ListingPath(listingId), WithDefaults("DELETE", NoBody))
  }

  function UploadListingImage(listingId: Value, file: Value): ApiCall {
    ApiCall(ListingPath(listingId) + "/image", WithDefaults("POST", FormBody([FormEntry("file", Part(file))])))
  }

  /** `obj[key] = v`: an existing key keeps its place, a new one goes last. */
  function Assign(obj: Entries, key: string, v: Value): (r: Entries)
    ensures |r| >= |obj|
    ensures forall i :: 0 <= i < |obj| ==> r[i].0 == obj[i].0
  {
    if obj == [] then [(key, v)]
    else if obj[0].0 == key then [(key, v)] + obj[1..]
    else [obj[0]] + Assign(obj[1..], key, v)
  }

  lemma {:induction false} GetAssign(obj: Entries, key: string, v: Value, k: string)
    ensures Get(Assign(obj, key, v), k) == if k == key then v else Get(obj, k)
  {
    if obj != [] && obj[0].0 != key {
      GetAssign(obj[1..], key, v, k);
    }
  }

  /** `{ ...target, ...source }`, key by key. */
  function Spread(target: Entries, source: Entries): (r: Entries)
    ensures |r| >= |target|
    ensures forall i :: 0 <= i < |target| ==> r[i].0 == target[i].0
    decreases |source|
  {
    if source == [] then target else Spread(Assign(target, source[0].0, source[0].1), source[1..])
  }

  /** After a spread, a key takes the source's value when the source has it, the target's otherwise. */
  lemma {:induction false} GetSpread(target: Entries, source: Entries, k: string)
    requires UniqueKeys(source)
    ensures Get(Spread(target, source), k) == if HasKey(source, k) then Get(source, k) else Get(target, k)
    decreases |source|
  {
    if source != [] {
      var (k0, v0) := source[0];
      var rest := source[1..];
      assert UniqueKeys(rest) by {
        forall i, j | 0 <= i < j < |rest| ensures rest[i].0 != rest[j].0 {
          assert rest[i] == source[i + 1] && rest[j] == source[j + 1];
        }
      }
      GetSpread(Assign(target, k0, v0), rest, k);
      GetAssign(target, k0, v0, k);
      HasKeyCons(source, k);
      if HasKey(rest, k) {
        var i :| 0 <= i < |rest| && rest[i].0 == k;
        assert source[i + 1] == rest[i];
      }
    }
  }

  /** A key is in an object when it is the first entry's or in the rest. */
  lemma HasKeyCons(obj: Entries, k: string)
    requires obj != []
    ensures HasKey(obj, k) <==> obj[0].0 == k || HasKey(obj[1..], k)
  {
    if HasKey(obj, k) {
      var i :| 0 <= i < |obj| && obj[i].0 == k;
      if i > 0 {
        assert obj[1..][i - 1] == obj[i];
      }
    }
    if HasKey(obj[1..], k) {
      var i :| 0 <= i < |obj[1..]| && obj[1..][i].0 == k;
      assert obj[i + 1] == obj[1..][i];
    }
  }

  /** `{ q: query, ...options }` */
  function SearchParams(query: Value, options: Entries): Entries {
    Spread([("q", query)], options)
  }

  /** `searchListings(query, options)` is `getListings` of the spread parameters. */
  function SearchListings(query: Value, options: Entries, encode: Entries -> string): ApiCall {
    GetListings(SearchParams(query, options), encode)
  }

  /**
   * The search parameters put "q" first; its value is the query unless the options carry a
   * "q" of their own, which wins; every other key has the options' value.
   */
  lemma SearchParamsContent(query: Value, options: Entries, k: string)
    requires UniqueKeys(options)
    ensures SearchParams(query, options)[0].0 == "q"
    ensures k == "q" ==> Get(SearchParams(query, options), k) == if HasKey(options, "q") then Get(options, "q") else query
    ensures k != "q" ==> Get(SearchParams(query, options), k) == Get(options, k)
  {
    GetSpread([("q", query)], options, k);
  }

  /** `/api/marketplace/contact/${sellerUserId}`, by POST. */
  function ContactSeller(sellerUserId: Value): ApiCall {
    ApiCall("/api/marketplace/contact/" + Text(sellerUserId), WithDefaults("POST", NoBody))
  }

  function GetListingChats(listingId: Value): ApiCall {
    ApiCall(ListingPath(listingId) + "/conversations", WithDefaults("GET", NoBody))
  }

  /** Every endpoint path is relative: the URL `request` fetches is the base followed by the path. */
  lemma EndpointUrl(base: string, path: string)
    requires StartsWith(path, "/api/marketplace/")
    ensures RequestUrl(base, path) == base + path
  {
    assert path[..4][0] == "/api/marketplace/"[0];
  }

  /**
   * Every endpoint path starts with "/api/marketplace/". `CreateListing` and `UpdateListing`
   * are methods; their contracts give `ListingsRoot` and `ListingPath` as their paths.
   */
  lemma EndpointPaths(id: Value, file: Value, params: Entries, query: Value, encode: Entries -> string)
    ensures StartsWith(ListingsRoot, "/api/marketplace/")
    ensures StartsWith(ListingPath(id), "/api/marketplace/")
    ensures StartsWith(SearchListings(query, params, encode).path, "/api/marketplace/")
    ensures StartsWith(GetListings(params, encode).path, "/api/marketplace/")
    ensures StartsWith(GetListing(id).path, "/api/marketplace/")
    ensures StartsWith(DeleteListing(id).path, "/api/marketplace/")
    ensures StartsWith(UploadListingImage(id, file).path, "/api/marketplace/")
    ensures StartsWith(ContactSeller(id).path, "/api/marketplace/")
    ensures StartsWith(GetListingChats(id).path, "/api/marketplace/")
  {
    var prefix := "/api/marketplace/";
    assert ListingsRoot[..|prefix|] == prefix;
    assert GetListings(params, encode).path[..|prefix|] == prefix;
    assert SearchListings(query, params, encode).path[..|prefix|] == prefix;
    assert ListingPath(id)[..|prefix|] == prefix;
    assert GetListing(id).path[..|prefix|] == prefix;
    assert UploadListingImage(id, file).path[..|prefix|] == prefix;
    assert ContactSeller(id).path[..|prefix|] == prefix;
    assert GetListingChats(id).path[..|prefix|] == prefix;
  }
}
