/** Resolution of a candidate's `profile_image` into the URL an `<img>`
    loads. Two variants exist: the candidate list's, and the profile's,
    which also honours a flag set once the image failed to load. The test
    for an absolute URL is a plain prefix test on "http". */
module ImageUrl {
  import opened Common

  const ApiBaseUrl: string := "https://kenyavoice.pythonanywhere.com"
  const DefaultImageUrl: string := ApiBaseUrl + "/media/default-profile.png"

  predicate StartsWith(s: string, prefix: string) {
    |prefix| <= |s| && s[..|prefix|] == prefix
  }

  predicate EndsWith(s: string, suffix: string) {
    |suffix| <= |s| && s[|s| - |suffix|..] == suffix
  }

  /** A string keeps its prefixes when something is appended to it. */
  lemma StartsWithAppend(s: string, t: string, prefix: string)
    requires StartsWith(s, prefix)
    ensures StartsWith(s + t, prefix)
  {
    assert (s + t)[..|prefix|] == s[..|prefix|];
  }

  lemma OriginIsHttp()
    ensures StartsWith(ApiBaseUrl, "http")
    ensures StartsWith(DefaultImageUrl, "http")
  {
    assert ApiBaseUrl[..4] == "http";
    StartsWithAppend(ApiBaseUrl, "/media/default-profile.png", "http");
  }

  /** A relative path joined to the API origin: the origin comes first,
      one '/' follows it, the path comes last, and a separator is inserted
      exactly when the path does not already start with one. */
  function OriginJoin(path: string): (r: string)
    requires path != ""
    ensures StartsWith(r, ApiBaseUrl) && EndsWith(r, path)
    ensures |r| > |ApiBaseUrl| && r[|ApiBaseUrl|] == '/'
    ensures |r| == |ApiBaseUrl| + |path| + (if path[0] == '/' then 0 else 1)
    ensures StartsWith(r, "http")
  {
    var r := ApiBaseUrl + (if StartsWith(path, "/") then "" else "/") + path;
    OriginIsHttp();
    StartsWithAppend(ApiBaseUrl, r[|ApiBaseUrl|..], ApiBaseUrl);
    StartsWithAppend(ApiBaseUrl, r[|ApiBaseUrl|..], "http");
    assert r == ApiBaseUrl + r[|ApiBaseUrl|..];
    r
  }

  /** The candidate list's `getImageUrl`: missing or empty paths give the
      default image, "http…" paths pass through, others are joined to the
      origin. */
  function ResolveImageUrl(raw: Option<string>): (r: string)
    ensures !Truthy(raw) ==> r == DefaultImageUrl
    ensures Truthy(raw) && StartsWith(raw.value, "http") ==> r == raw.value
    ensures Truthy(raw) && !StartsWith(raw.value, "http") ==> r == OriginJoin(raw.value)
    ensures r != "" && StartsWith(r, "http")
  {
    OriginIsHttp();
    if !Truthy(raw) then DefaultImageUrl
    else if StartsWith(raw.value, "http") then raw.value
    else OriginJoin(raw.value)
  }

  /** The profile's `getImageUrl`: the same tests, except that a set
      `imageError` flag forces the default image. */
  function ProfileImageUrl(raw: Option<string>, imageError: bool): (r: string)
    ensures imageError ==> r == DefaultImageUrl
    ensures !imageError ==> r == ResolveImageUrl(raw)
  {
    if !Truthy(raw) || imageError then DefaultImageUrl
    else if StartsWith(raw.value, "http") then raw.value
    else OriginJoin(raw.value)
  }

  /** A resolved URL is already absolute: resolving it again changes
      nothing, so in particular the default image resolves to itself. */
  lemma ResolveIsFixpoint(raw: Option<string>)
    ensures ResolveImageUrl(Some(ResolveImageUrl(raw))) == ResolveImageUrl(raw)
    ensures ProfileImageUrl(Some(ProfileImageUrl(raw, false)), false) == ProfileImageUrl(raw, false)
  {
  }

  /** Null and the empty string resolve alike, a path with and a path
      without its leading '/' resolve alike, and an absolute URL is kept. */
  lemma ResolveExamples()
    ensures ResolveImageUrl(None) == ResolveImageUrl(Some("")) == DefaultImageUrl
    ensures ResolveImageUrl(Some("http://x/y")) == "http://x/y"
    ensures ResolveImageUrl(Some("/media/a.png")) == ApiBaseUrl + "/media/a.png"
    ensures ResolveImageUrl(Some("media/a.png")) == ResolveImageUrl(Some("/media/a.png"))
  {
    assert !StartsWith("/media/a.png", "http");
    assert !StartsWith("media/a.png", "http");
    assert StartsWith("/media/a.png", "/");
    assert "media/a.png"[..1] == "m";
    assert !StartsWith("media/a.png", "/");
    assert ApiBaseUrl + "/" + "media/a.png" == ApiBaseUrl + "/media/a.png";
  }
}
