/** The remote API every panel reads: one host, endpoints under `/system/api/`. */
module Endpoints {
  import opened Text
  import UseApi

  const Scheme := "https"
  const Host := Scheme + "://pesantrenteknologi.id"
  const ApiRoot := Host + "/system/api/"
  /** Where the santri photos are served from. */
  const UploadsBase := Host + "/system/assets/uploads/fotosantri/"
  /** The same folder as the academic and dashboard panels spell it, with a doubled slash. */
  const PanelUploadsBase := Host + "/system//assets/uploads/fotosantri/"

  /** The address of an uploaded photo, as the academic and dashboard panels build it. */
  function PanelPhotoUrl(file: string): (url: string)
    ensures StartsWith(url, PanelUploadsBase) && url[|PanelUploadsBase|..] == file
  {
    var url := PanelUploadsBase + file;
    assert url[..|PanelUploadsBase|] == PanelUploadsBase;
    url
  }

  /** A panel's resource URL: an endpoint path under the API root. */
  function ApiUrl(path: string): (url: string)
    ensures StartsWith(url, "http")
    ensures StartsWith(url, ApiRoot) && url[|ApiRoot|..] == path
  {
    var url := ApiRoot + path;
    assert url == Scheme + ("://pesantrenteknologi.id" + "/system/api/" + path);
    assert url[..4] == Scheme[..4] == "http";
    url
  }

  /** Every resource URL is absolute, so the hook requests it unchanged. */
  lemma ApiUrlIsRequestedVerbatim(path: string)
    ensures UseApi.NormalizeUrl(ApiUrl(path)) == ApiUrl(path)
  {
  }

  /** Different paths are different resources. */
  lemma ApiUrlInjective(p: string, q: string)
    requires ApiUrl(p) == ApiUrl(q)
    ensures p == q
  {
    assert p == ApiUrl(p)[|ApiRoot|..];
    assert q == ApiUrl(q)[|ApiRoot|..];
  }
}
