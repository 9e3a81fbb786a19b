/**
 * The JWT payload reader used by the UI to read the "role" claim. It checks only the
 * three-segment shape of the JWS compact serialization (section 7.1 of RFC 7515), maps
 * the payload from the base64url alphabet (section 5 of RFC 4648) to the standard
 * base64 alphabet (section 4 of RFC 4648), and never verifies the signature.
 *
 * The browser primitives are parameters: `atob` (base64 decoding, None when it throws),
 * `utf8` (the UTF-8 decoding inside `decodeURIComponent`, None when it throws a URIError)
 * and `parse` (`JSON.parse`).
 */
module Jwt {
  import opened Strings
  import opened Json
  import opened Wrappers

  type Byte = b: int | 0 <= b < 256

  // ---------------------------------------------------------------------------
  // Segments: `token.split(".")`

  /** Number of occurrences of `c` in `s`. */
  function Count(s: string, c: char): nat {
    if s == [] then 0 else (if s[0] == c then 1 else 0) + Count(s[1..], c)
  }

  /** `s.split(sep)` for a one-character separator (empty pieces kept, as JavaScript does). */
  function Split(s: string, sep: char): (parts: seq<string>)
    ensures |parts| >= 1
  {
    if s == [] then [""]
    else
      var rest := Split(s[1..], sep);
      if s[0] == sep then [""] + rest
      else [[s[0]] + rest[0]] + rest[1..]
  }

  /** `split` yields one more piece than there are separators. */
  lemma {:induction false} SplitLength(s: string, sep: char)
    ensures |Split(s, sep)| == Count(s, sep) + 1
  {
    if s != [] {
      SplitLength(s[1..], sep);
    }
  }

  /** No piece of `split` contains the separator. */
  lemma {:induction false} SplitPiecesFree(s: string, sep: char)
    ensures forall k :: 0 <= k < |Split(s, sep)| ==> sep !in Split(s, sep)[k]
  {
    if s != [] {
      SplitPiecesFree(s[1..], sep);
    }
  }

  lemma JoinCons(c: char, x: string, ys: seq<string>, sep: string)
    ensures Join([[c] + x] + ys, sep) == [c] + Join([x] + ys, sep)
  {
    if ys != [] {
      assert ([[c] + x] + ys)[1..] == ys;
      assert ([x] + ys)[1..] == ys;
    }
  }

  /** Joining the pieces back with the separator gives the original string. */
  lemma {:induction false} JoinSplit(s: string, sep: char)
    ensures Join(Split(s, sep), [sep]) == s
  {
    if s != [] {
      var rest := Split(s[1..], sep);
      JoinSplit(s[1..], sep);
      if s[0] == sep {
        assert ([""] + rest)[1..] == rest;
      } else {
        assert rest == [rest[0]] + rest[1..];
        JoinCons(s[0], rest[0], rest[1..], [sep]);
      }
    }
  }

  lemma {:induction false} SplitFreePrefix(a: string, b: string, sep: char)
    requires sep !in a
    ensures Split(a + [sep] + b, sep) == [a] + Split(b, sep)
  {
    if a == [] {
      assert [] + [sep] + b == [sep] + b;
      assert ([sep] + b)[1..] == b;
    } else {
      assert (a + [sep] + b)[1..] == a[1..] + [sep] + b;
      SplitFreePrefix(a[1..], b, sep);
      assert [a[0]] + a[1..] == a;
    }
  }

  lemma {:induction false} SplitFree(a: string, sep: char)
    requires sep !in a
    ensures Split(a, sep) == [a]
  {
    if a != [] {
      SplitFree(a[1..], sep);
      assert [a[0]] + a[1..] == a;
    }
  }

  /** Splitting a joined list of separator-free pieces gives the pieces back. */
  lemma {:induction false} SplitJoin(parts: seq<string>, sep: char)
    requires |parts| >= 1
    requires forall k :: 0 <= k < |parts| ==> sep !in parts[k]
    ensures Split(Join(parts, [sep]), sep) == parts
  {
    if |parts| == 1 {
      SplitFree(parts[0], sep);
    } else {
      SplitJoin(parts[1..], sep);
      SplitFreePrefix(parts[0], Join(parts[1..], [sep]), sep);
      assert [parts[0]] + parts[1..] == parts;
    }
  }

  // ---------------------------------------------------------------------------
  // Alphabet: `.replace(/-/g, "+").replace(/_/g, "/")`

  /** `s.replace(/from/g, to)` for a single-character pattern. */
  function ReplaceAll(s: string, from: char, to: char): (r: string)
    ensures |r| == |s|
    ensures forall i :: 0 <= i < |s| ==> r[i] == (if s[i] == from then to else s[i])
  {
    if s == [] then [] else [if s[0] == from then to else s[0]] + ReplaceAll(s[1..], from, to)
  }

  /** The base64url-to-base64 correspondence of RFC 4648, character by character. */
  function UrlToStandard(c: char): char {
    if c == '-' then '+' else if c == '_' then '/' else c
  }

  function StandardToUrl(c: char): char {
    if c == '+' then '-' else if c == '/' then '_' else c
  }

  /** The payload segment in the standard base64 alphabet, as `decodeJwt` hands it to `atob`. */
  function ToStandardAlphabet(segment: string): (r: string)
    ensures |r| == |segment|
    ensures forall i :: 0 <= i < |segment| ==> r[i] == UrlToStandard(segment[i])
  {
    ReplaceAll(ReplaceAll(segment, '-', '+'), '_', '/')
  }

  /** The reverse mapping (what a base64url encoder applies). */
  function ToUrlAlphabet(s: string): (r: string)
    ensures |r| == |s|
    ensures forall i :: 0 <= i < |s| ==> r[i] == StandardToUrl(s[i])
  {
    ReplaceAll(ReplaceAll(s, '+', '-'), '/', '_')
  }

  /** A base64url segment (no '+' and no '/') survives the round trip through the standard alphabet. */
  lemma AlphabetRoundTrip(segment: string)
    requires '+' !in segment && '/' !in segment
    ensures ToUrlAlphabet(ToStandardAlphabet(segment)) == segment
  {
    var r := ToUrlAlphabet(ToStandardAlphabet(segment));
    forall i | 0 <= i < |segment|
      ensures r[i] == segment[i]
    {
      assert segment[i] != '+' && segment[i] != '/';
    }
  }

  // ---------------------------------------------------------------------------
  // Escapes: `.map(c => "%" + c.charCodeAt(0).toString(16).padStart(2, "0")).join("")`

  function HexDigit(d: nat): char
    requires d < 16
  {
    "0123456789abcdef"[d]
  }

  /** `n.toString(16)`: lower-case hexadecimal digits without leading zeros. */
  function ToHex(n: nat): (r: string)
    ensures |r| >= 1
  {
    if n < 16 then [HexDigit(n)] else ToHex(n / 16) + [HexDigit(n % 16)]
  }

  /** `s.padStart(2, "0")` */
  function PadStart2(s: string): (r: string)
    ensures |s| >= 2 ==> r == s
    ensures |s| < 2 ==> |r| == 2 && r[2 - |s|..] == s && forall i :: 0 <= i < 2 - |s| ==> r[i] == '0'
  {
    if |s| >= 2 then s else seq(2 - |s|, _ => '0') + s
  }

  /** For a byte, `toString(16).padStart(2, "0")` is its two lower-case hex digits. */
  lemma PaddedHexOfByte(b: Byte)
    ensures PadStart2(ToHex(b)) == [HexDigit(b / 16), HexDigit(b % 16)]
  {
    if b < 16 {
      assert ToHex(b) == [HexDigit(b)];
      assert HexDigit(0) == '0';
    } else {
      assert ToHex(b / 16) == [HexDigit(b / 16)];
    }
  }

  /** The escape of one byte of `atob`'s binary string: `%` and its two hex digits. */
  function Escape(b: Byte): (r: string)
    ensures |r| == 3
  {
    ['%', HexDigit(b / 16), HexDigit(b % 16)]
  }

  /** `"%" + b.toString(16).padStart(2, "0")` is the escape of the byte `b`. */
  lemma EscapeIsPaddedHex(b: Byte)
    ensures "%" + PadStart2(ToHex(b)) == Escape(b)
  {
    PaddedHexOfByte(b);
  }

  /** The escaped form of a whole binary string. */
  function PercentEncode(bytes: seq<Byte>): (r: string)
    ensures |r| == 3 * |bytes|
  {
    if bytes == [] then "" else Escape(bytes[0]) + PercentEncode(bytes[1..])
  }

  /** Three characters followed by `tail`: the block at `k + 3` is the block of `tail` at `k`. */
  lemma BlockAfter(head: string, tail: string, k: int)
    requires |head| == 3 && -3 <= k && k + 3 <= |tail| + 3
    ensures k < 0 ==> (head + tail)[..3] == head
    ensures k >= 0 && k + 3 <= |tail| ==> (head + tail)[k + 3..k + 6] == tail[k..k + 3]
  {
  }

  /** Each byte occupies exactly the three characters `%hh` at its own position. */
  lemma {:induction false} PercentEncodeAt(bytes: seq<Byte>, i: nat)
    requires i < |bytes|
    ensures PercentEncode(bytes)[3 * i..3 * i + 3] == Escape(bytes[i])
  {
    var head := Escape(bytes[0]);
    var tail := PercentEncode(bytes[1..]);
    assert PercentEncode(bytes) == head + tail;
    if i > 0 {
      PercentEncodeAt(bytes[1..], i - 1);
      BlockAfter(head, tail, 3 * (i - 1));
    } else {
      BlockAfter(head, tail, -3);
    }
  }

  /** Value of a hexadecimal digit, either case, as `decodeURIComponent` reads it. */
  function HexValue(c: char): Option<nat> {
    if '0' <= c <= '9' then Some(c as int - '0' as int)
    else if 'a' <= c <= 'f' then Some(c as int - 'a' as int + 10)
    else if 'A' <= c <= 'F' then Some(c as int - 'A' as int + 10)
    else None
  }

  /**
   * The bytes named by a string made wholly of `%hh` escapes; None for any other string.
   * This is the percent-decoding half of `decodeURIComponent`.
   */
  function Unescape(s: string): (r: Option<seq<Byte>>)
    ensures r.Some? ==> 3 * |r.value| == |s|
    decreases |s|
  {
    if s == [] then Some([])
    else if |s| >= 3 && s[0] == '%' && HexValue(s[1]).Some? && HexValue(s[2]).Some? then
      match Unescape(s[3..])
      case None => None
      case Some(rest) => Some([HexValue(s[1]).value * 16 + HexValue(s[2]).value] + rest)
    else None
  }

  lemma HexValueOfDigit(d: nat)
    requires d < 16
    ensures HexValue(HexDigit(d)) == Some(d)
  {
    var digits := "0123456789abcdef";
    if d < 10 {
      assert digits[d] as int == '0' as int + d;
    } else {
      assert digits[d] as int == 'a' as int + d - 10;
    }
  }

  /** Decoding reads a leading `%` and two hex digits back as the byte they name. */
  lemma UnescapeHexPair(hi: nat, lo: nat, rest: string)
    requires hi < 16 && lo < 16
    ensures Unescape(['%', HexDigit(hi), HexDigit(lo)] + rest)
            == if Unescape(rest).Some? then Some([hi * 16 + lo] + Unescape(rest).value) else None
  {
    var s := ['%', HexDigit(hi), HexDigit(lo)] + rest;
    assert s[0] == '%' && s[1] == HexDigit(hi) && s[2] == HexDigit(lo);
    assert s[3..] == rest;
    HexValueOfDigit(hi);
    HexValueOfDigit(lo);
    UnescapeFirst(s);
  }

  /** Decoding a string that starts with an escape: its byte, then the rest decoded. */
  lemma UnescapeFirst(s: string)
    requires |s| >= 3 && s[0] == '%' && HexValue(s[1]).Some? && HexValue(s[2]).Some?
    ensures Unescape(s)
            == if Unescape(s[3..]).Some? then Some([HexValue(s[1]).value * 16 + HexValue(s[2]).value] + Unescape(s[3..]).value) else None
  {
  }

  /** Decoding reads a leading escape back as its byte and goes on with the rest. */
  lemma UnescapeEscape(b: Byte, rest: string)
    ensures Unescape(Escape(b) + rest)
            == if Unescape(rest).Some? then Some([b] + Unescape(rest).value) else None
  {
    UnescapeHexPair(b / 16, b % 16, rest);
  }

  /** Percent-decoding undoes the escaping exactly. */
  lemma {:induction false} UnescapePercentEncode(bytes: seq<Byte>)
    ensures Unescape(PercentEncode(bytes)) == Some(bytes)
  {
    if bytes != [] {
      UnescapePercentEncode(bytes[1..]);
      UnescapeEscape(bytes[0], PercentEncode(bytes[1..]));
      assert [bytes[0]] + bytes[1..] == bytes;
    }
  }

  /**
   * `decodeURIComponent(s)` on a string made wholly of `%hh` escapes: the escaped bytes
   * are decoded as UTF-8 (None when the bytes are not UTF-8, where the call throws).
   */
  function DecodeUriComponent(s: string, utf8: seq<Byte> -> Option<string>): Option<string>
    requires Unescape(s).Some?
  {
    utf8(Unescape(s).value)
  }

  // ---------------------------------------------------------------------------
  // decodeJwt / getJwtRole

  /**
   * `decodeJwt(token)`: the parsed payload, or None for every failure the source turns
   * into `null` (falsy token, wrong segment count, and any throw from `atob`,
   * `decodeURIComponent` or `JSON.parse`). A payload that parses to `null` is Some(JNull),
   * which is the same JavaScript value as the failure `null`.
   */
  function DecodeJwt(token: Option<string>, atob: string -> Option<seq<Byte>>,
                     utf8: seq<Byte> -> Option<string>, parse: string -> JsonParse): (payload: Option<Json>)
    ensures token.None? || token.value == "" ==> payload.None?
    ensures payload.Some? ==> token.Some? && Count(token.value, '.') == 2
  {
    if token.None? || token.value == "" then None
    else
      var parts := Split(token.value, '.');
      SplitLength(token.value, '.');
      if |parts| != 3 then None
      else
        match atob(ToStandardAlphabet(parts[1]))
        case None => None
        case Some(binary) =>
          var escaped := PercentEncode(binary);
          UnescapePercentEncode(binary);
          match DecodeUriComponent(escaped, utf8)
          case None => None
          case Some(json) =>
            match parse(json)
            case Parsed(v) => Some(v)
            case Unparsable(_) => None
  }

  /** What `decodeJwt` does with a payload segment once the token has the right shape. */
  function DecodePayloadSegment(segment: string, atob: string -> Option<seq<Byte>>,
                                utf8: seq<Byte> -> Option<string>, parse: string -> JsonParse): Option<Json>
  {
    match atob(ToStandardAlphabet(segment))
    case None => None
    case Some(binary) =>
      match utf8(binary)
      case None => None
      case Some(json) =>
        match parse(json)
        case Parsed(v) => Some(v)
        case Unparsable(_) => None
  }

  /**
   * The `%hh` detour is exactly UTF-8 decoding of the base64 payload: a token of three
   * dot-free segments decodes to what its middle segment decodes to, whatever the header
   * and the signature hold. The signature is never inspected.
   */
  lemma DecodeJwtReadsOnlyPayload(header: string, segment: string, signature: string,
                                  atob: string -> Option<seq<Byte>>, utf8: seq<Byte> -> Option<string>,
                                  parse: string -> JsonParse)
    requires '.' !in header && '.' !in segment && '.' !in signature
    ensures DecodeJwt(Some(Join([header, segment, signature], ".")), atob, utf8, parse)
            == DecodePayloadSegment(segment, atob, utf8, parse)
  {
    var parts := [header, segment, signature];
    SplitJoin(parts, '.');
    var token := Join(parts, ".");
    assert |token| >= 2;
    match atob(ToStandardAlphabet(segment))
    case None =>
    case Some(binary) =>
      UnescapePercentEncode(binary);
  }

  /** A token whose number of dots is not two is rejected, whatever the oracles say. */
  lemma DecodeJwtRejectsShape(token: string, atob: string -> Option<seq<Byte>>,
                              utf8: seq<Byte> -> Option<string>, parse: string -> JsonParse)
    requires Count(token, '.') != 2
    ensures DecodeJwt(Some(token), atob, utf8, parse).None?
  {}

  /**
   * `getJwtRole(token)`: the "role" claim when it is truthy, None (`null`) otherwise,
   * including whenever the token does not decode.
   */
  function GetJwtRole(token: Option<string>, atob: string -> Option<seq<Byte>>,
                      utf8: seq<Byte> -> Option<string>, parse: string -> JsonParse): (role: Option<Json>)
    ensures role.Some? ==> Truthy(role.value)
    ensures role.Some? <==>
      var payload := DecodeJwt(token, atob, utf8, parse);
      payload.Some? && payload.value.JObject? && "role" in payload.value.fields
      && Truthy(payload.value.fields["role"])
    ensures role.Some? ==> role.value == DecodeJwt(token, atob, utf8, parse).value.fields["role"]
  {
    match DecodeJwt(token, atob, utf8, parse)
    case None => None
    case Some(payload) =>
      var role := Field(payload, "role");
      if TruthyOpt(role) then role else None
  }
}
