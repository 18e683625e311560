/**
  The file URL helper: a stored path becomes a link on the API host unless
  it already is an absolute `http` URL.
*/
module Config {
  import opened Wrappers

  const ApiHost: string := "api-yec.over24h.shop"
  const ApiBaseUrl: string := "https://" + ApiHost
  const FileBaseUrl: string := "https://" + ApiHost

  predicate StartsWith(s: string, prefix: string) {
    |prefix| <= |s| && s[..|prefix|] == prefix
  }

  /** `getFileUrl`: `null` for a missing or empty path, an `http` URL as is, anything else behind the file host. */
  function GetFileUrl(path: Option<string>): (r: Option<string>)
    ensures r.None? <==> path.None? || path.value == ""
    ensures r.Some? && StartsWith(path.value, "http") ==> r == path
    ensures r.Some? && !StartsWith(path.value, "http") ==> r.value == FileBaseUrl + path.value
  {
    match path
    case None => None
    case Some(p) =>
      if p == "" then None
      else if StartsWith(p, "http") then Some(p)
      else Some(FileBaseUrl + p)
  }

  /** Every URL the helper returns is an `http` URL and still ends with the path it was given. */
  lemma UrlsAreAbsolute(path: Option<string>)
    requires GetFileUrl(path).Some?
    ensures StartsWith(GetFileUrl(path).value, "http")
    ensures var u := GetFileUrl(path).value; |path.value| <= |u| && u[|u| - |path.value|..] == path.value
  {
    var p := path.value;
    if !StartsWith(p, "http") {
      var u := FileBaseUrl + p;
      assert u[..4] == FileBaseUrl[..4];
      assert u[|u| - |p|..] == p;
    }
  }

  /** The helper is idempotent: a URL it returned is returned unchanged when passed back in. */
  lemma GetFileUrlIdempotent(path: Option<string>)
    requires GetFileUrl(path).Some?
    ensures GetFileUrl(GetFileUrl(path)) == GetFileUrl(path)
  {
    UrlsAreAbsolute(path);
  }

  /** The API and the files are served from the same `https` origin. */
  lemma SameOrigin()
    ensures ApiBaseUrl == FileBaseUrl == "https://api-yec.over24h.shop"
  {
  }
}
