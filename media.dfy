/**
 * The media URL resolver: turns a media path stored by the backend into an absolute
 * URL on the API host, leaving absolute URLs alone.
 */
module Media {
  import opened Strings
  import opened Wrappers

  /** Host used when the build sets no API base. */
  const DefaultApiBase: string := "http://localhost:8080"

  /** Path of the placeholder avatar on the API host. */
  const DefaultAvatarPath: string := "/media/avatars/default.png"

  /** `VITE_API_BASE || "http://localhost:8080"`: an unset or empty setting falls back to the default. */
  function ApiBase(setting: Option<string>): (base: string)
    ensures base != ""
  {
    if setting.Some? && setting.value != "" then setting.value else DefaultApiBase
  }

  /** `mediaUrl(path)`; `None` stands for `null`/`undefined`. */
  function MediaUrl(apiBase: string, path: Option<string>): string {
    if path.None? || path.value == "" then ""
    else if StartsWith(path.value, "http") then path.value
    else apiBase + path.value
  }

  /** `defaultAvatar` */
  function DefaultAvatar(apiBase: string): (url: string)
    ensures |url| >= |apiBase| && url[..|apiBase|] == apiBase
    ensures url == MediaUrl(apiBase, Some(DefaultAvatarPath))
  {
    assert DefaultAvatarPath[0] != "http"[0];
    apiBase + DefaultAvatarPath
  }

  /** The three cases of `mediaUrl`, stated by what the result looks like. */
  lemma MediaUrlCases(apiBase: string, path: Option<string>)
    ensures path.None? || path.value == "" ==> MediaUrl(apiBase, path) == ""
    ensures path.Some? && StartsWith(path.value, "http") ==> MediaUrl(apiBase, path) == path.value
    ensures path.Some? && path.value != "" && !StartsWith(path.value, "http") ==>
      var r := MediaUrl(apiBase, path);
      |r| == |apiBase| + |path.value| && r[..|apiBase|] == apiBase && r[|apiBase|..] == path.value
  {}

  /** A non-empty result always ends with the path it was given. */
  lemma MediaUrlEndsWithPath(apiBase: string, path: string)
    requires path != ""
    ensures var r := MediaUrl(apiBase, Some(path));
      |path| <= |r| && r[|r| - |path|..] == path
  {
    var r := MediaUrl(apiBase, Some(path));
    if !StartsWith(path, "http") {
      assert r == apiBase + path;
      assert r[|r| - |path|..] == path;
    }
  }

  /** An API base that is itself an http(s) URL makes `mediaUrl` idempotent on every input. */
  lemma {:induction false} MediaUrlIdempotent(apiBase: string, path: Option<string>)
    requires StartsWith(apiBase, "http")
    ensures MediaUrl(apiBase, Some(MediaUrl(apiBase, path))) == MediaUrl(apiBase, path)
  {
    var r := MediaUrl(apiBase, path);
    if path.Some? && path.value != "" && !StartsWith(path.value, "http") {
      assert r == apiBase + path.value;
      assert r[..4] == apiBase[..4];
      assert StartsWith(r, "http");
    }
  }

  /** The default base satisfies the premise of `MediaUrlIdempotent`. */
  lemma DefaultApiBaseIsHttp()
    ensures StartsWith(DefaultApiBase, "http")
  {}

  /** Without an http base the resolver is not idempotent: a relative base is prepended again. */
  lemma RelativeBaseNotIdempotent()
    ensures MediaUrl("/api", Some("/a")) == "/api/a"
    ensures MediaUrl("/api", Some(MediaUrl("/api", Some("/a")))) == "/api/api/a"
  {}
}
