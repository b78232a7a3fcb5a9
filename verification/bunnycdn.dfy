/** File storage on BunnyCDN: the storage and public hosts derived from the
    environment, the configuration test, and the request and result of an
    upload. The HTTP exchange itself is a parameter: `fetch` is given as a
    function from the request to the response. */
module BunnyCdn {
  import opened Wrappers
  import opened Strings

  /** The environment variables the module reads, each possibly unset. */
  datatype BunnyEnv = BunnyEnv(
    region: Option<string>,       // BUNNY_STORAGE_REGION
    zone: Option<string>,         // BUNNY_STORAGE_ZONE
    accessKey: Option<string>,    // BUNNY_ACCESS_KEY
    apiHost: Option<string>,      // BUNNY_STORAGE_API_HOST
    cdnHost: Option<string>,      // BUNNY_CDN_HOST
    cdnHostname: Option<string>)  // BUNNY_CDN_HOSTNAME

  const DefaultStorageHost := "storage.bunnycdn.com"

  const NotConfiguredError :=
    "BunnyCDN is not configured (BUNNY_STORAGE_ZONE, BUNNY_ACCESS_KEY, and BUNNY_CDN_HOST or BUNNY_CDN_HOSTNAME)"

  /** The number of leading characters the pattern `^https?:\/\/` matches,
      zero when it does not match. */
  function SchemeLength(s: string): (n: nat)
    ensures n <= |s|
    ensures n == 7 <==> StartsWith(s, "http://")
    ensures n == 8 <==> StartsWith(s, "https://")
    ensures n == 0 <==> !StartsWith(s, "http://") && !StartsWith(s, "https://")
  {
    SchemesDiffer(s);
    if StartsWith(s, "http://") then 7
    else if StartsWith(s, "https://") then 8
    else 0
  }

  /** The two schemes differ at their fifth character, so no string starts
      with both. */
  lemma SchemesDiffer(s: string)
    ensures StartsWith(s, "http://") ==> s[4] == ':'
    ensures StartsWith(s, "https://") ==> s[4] == 's'
  {
    if StartsWith(s, "http://") {
      assert s[..7][4] == s[4];
    }
    if StartsWith(s, "https://") {
      assert s[..8][4] == s[4];
    }
  }

  /** `s.replace(/\/$/, "")`: one trailing slash is dropped, if present. */
  function DropTrailingSlash(s: string): (r: string)
    ensures EndsWith(s, "/") ==> r + "/" == s
    ensures !EndsWith(s, "/") ==> r == s
  {
    if |s| > 0 && s[|s| - 1] == '/' then s[..|s| - 1] else s
  }

  /** A bare host name such as "la.storage.bunnycdn.com": no slash at all,
      so neither a scheme nor a trailing slash. */
  predicate IsBareHost(h: string) {
    '/' !in h
  }

  /** The API host with at most one leading "http://" or "https://" and at
      most one trailing "/" removed, nothing else touched. */
  function NormalizeApiHost(host: string): (r: string)
    ensures var n := SchemeLength(host);
      host == host[..n] + r || host == host[..n] + r + "/"
    ensures var n := SchemeLength(host);
      host == host[..n] + r + "/" <==> EndsWith(host[n..], "/")
  {
    var n := SchemeLength(host);
    var rest := host[n..];
    var r := DropTrailingSlash(rest);
    assert host == host[..n] + rest;
    r
  }

  /** Normalisation undoes the decoration of a bare host: an optional scheme
      in front and an optional slash behind. */
  lemma NormalizeRecoversBareHost(scheme: string, h: string, slash: string)
    requires scheme == "" || scheme == "http://" || scheme == "https://"
    requires slash == "" || slash == "/"
    requires IsBareHost(h)
    ensures NormalizeApiHost(scheme + h + slash) == h
  {
    var s := scheme + h + slash;
    if scheme == "http://" {
      assert s == "http://" + (h + slash);
      assert s[..7] == "http://";
      assert SchemeLength(s) == 7;
      assert s[7..] == h + slash;
    } else if scheme == "https://" {
      assert s == "https://" + (h + slash);
      assert s[..8] == "https://";
      assert SchemeLength(s) == 8;
      assert s[8..] == h + slash;
    } else {
      assert s == h + slash;
      if |s| >= 7 {
        assert h[5] in h;
        assert s[..7][5] == h[5] && "http://"[5] == '/';
      }
      if |s| >= 8 {
        assert s[..8][6] == h[6] && "https://"[6] == '/';
      }
    }
  }

  /** Only one scheme and one slash are removed. */
  lemma NormalizeStripsOnce()
    ensures NormalizeApiHost("https://https://x.net//") == "https://x.net/"
  {
    var u := "https://x.net/";
    var t := u + "/";
    var s := "https://" + t;
    assert s == "https://https://x.net//";
    assert s[..8] == "https://";
    SchemesDiffer(s);
    assert s[4] == 's';
    assert SchemeLength(s) == 8;
    assert s[8..] == t;
    assert t[..|t| - 1] == u;
  }

  /** `STORAGE_API_HOST`: the API host variable less one leading scheme and
      one trailing slash; unset when the variable is. */
  function ApiHost(env: BunnyEnv): (r: Option<string>)
    ensures r.None? <==> env.apiHost.None?
    ensures r.Some? ==>
      var h := env.apiHost.value;
      var n := SchemeLength(h);
      (h == h[..n] + r.value || h == h[..n] + r.value + "/")
      && (h == h[..n] + r.value + "/" <==> EndsWith(h[n..], "/"))
  {
    if env.apiHost.None? then None else Some(NormalizeApiHost(env.apiHost.value))
  }

  /** A host variable that survives trailing-slash removal as a non-empty
      string. */
  predicate IsUsableHost(h: Option<string>) {
    h.Some? && h.value != "" && h.value != "/"
  }

  /** `CDN_HOST`: BUNNY_CDN_HOST without its trailing slash when that leaves
      something, otherwise "https://" + BUNNY_CDN_HOSTNAME without its
      trailing slash when that leaves something, otherwise unset. */
  function CdnHost(env: BunnyEnv): (r: Option<string>)
    ensures r.None? <==> !IsUsableHost(env.cdnHost) && !IsUsableHost(env.cdnHostname)
    ensures r.Some? ==> r.value != ""
    ensures IsUsableHost(env.cdnHost) ==> r == Some(DropTrailingSlash(env.cdnHost.value))
    ensures !IsUsableHost(env.cdnHost) && IsUsableHost(env.cdnHostname) ==>
      r == Some("https://" + DropTrailingSlash(env.cdnHostname.value))
  {
    var host := if env.cdnHost.None? then None else Some(DropTrailingSlash(env.cdnHost.value));
    if Truthy(host) then host
    else
      var hostname := if env.cdnHostname.None? then None else Some(DropTrailingSlash(env.cdnHostname.value));
      if Truthy(hostname) then
        var r := "https://" + hostname.value;
        assert r == "https://" + hostname.value;
        Some(r)
      else None
  }

  /** `getStorageHost()`: always an https URL, naming the configured API
      host when it survives normalisation, else the regional storage host,
      else the default (Falkenstein) one. */
  function StorageHost(env: BunnyEnv): (r: string)
    ensures StartsWith(r, "https://")
    ensures Truthy(ApiHost(env)) ==> r == "https://" + ApiHost(env).value
    ensures !Truthy(ApiHost(env)) && Truthy(env.region) ==>
      r == "https://" + env.region.value + "." + DefaultStorageHost
    ensures !Truthy(ApiHost(env)) && !Truthy(env.region) ==> r == "https://" + DefaultStorageHost
  {
    var region := env.region.GetOr("");
    var apiHost := ApiHost(env);
    if Truthy(apiHost) then "https://" + apiHost.value
    else
      var prefix := if region != "" then region + "." else "";
      assert region != "" ==> "https://" + prefix + DefaultStorageHost == "https://" + region + "." + DefaultStorageHost;
      "https://" + prefix + DefaultStorageHost
  }

  /** `isBunnyConfigured()`: a zone, an access key and a CDN host are all
      present and non-empty. */
  function IsBunnyConfigured(env: BunnyEnv): (r: bool)
    ensures r <==> (Truthy(env.zone) && Truthy(env.accessKey) &&
                    (IsUsableHost(env.cdnHost) || IsUsableHost(env.cdnHostname)))
  {
    Truthy(env.zone) && Truthy(env.accessKey) && Truthy(CdnHost(env))
  }

  /** The PUT request an upload sends. */
  datatype UploadRequest = UploadRequest(url: string, accessKey: string, contentType: string)

  /** What the upload reads from the HTTP response. */
  datatype Response = Response(ok: bool, status: nat, text: string)

  /** The request `uploadToBunny` sends for `path`, or the configuration
      error thrown before any request is formed. The request goes to the
      storage host, under the zone, at `path`, authenticated by the access
      key. */
  function UploadRequestFor(env: BunnyEnv, path: string, contentType: string): (r: Result<UploadRequest, string>)
    ensures r.Failure? <==> !IsBunnyConfigured(env)
    ensures r.Failure? ==> r.error == NotConfiguredError
    ensures r.Success? ==>
      && r.value.url == StorageHost(env) + "/" + env.zone.value + "/" + path
      && r.value.accessKey == env.accessKey.value
      && r.value.contentType == contentType
  {
    if !IsBunnyConfigured(env) then Failure(NotConfiguredError)
    else Success(UploadRequest(StorageHost(env) + "/" + env.zone.value + "/" + path, env.accessKey.value, contentType))
  }

  /** The error thrown for a response that is not ok. */
  function UploadFailedError(res: Response): string {
    "BunnyCDN upload failed: " + NatToString(res.status) + " " + res.text
  }

  /** `uploadToBunny(buffer, path, contentType)`, with `fetch` as the
      function `send` from request to response. Unconfigured, it fails
      without sending; a response that is not ok fails with its status and
      text; otherwise the result is the public CDN URL of `path`. */
  function UploadToBunny(env: BunnyEnv, path: string, contentType: string, send: UploadRequest -> Response)
    : (r: Result<string, string>)
    ensures !IsBunnyConfigured(env) ==> r == Failure(NotConfiguredError)
    ensures IsBunnyConfigured(env) ==>
      var res := send(UploadRequestFor(env, path, contentType).value);
      && (res.ok ==> r == Success(CdnHost(env).value + "/" + path))
      && (!res.ok ==> r == Failure(UploadFailedError(res)))
  {
    match UploadRequestFor(env, path, contentType)
    case Failure(e) => Failure(e)
    case Success(request) =>
      var res := send(request);
      if !res.ok then Failure(UploadFailedError(res))
      else Success(CdnHost(env).value + "/" + path)
  }

  /** The public URL of an upload is exactly the CDN host, a slash and the
      path, so the path can be read back from it. */
  lemma PublicUrlLocatesPath(env: BunnyEnv, path: string, contentType: string, send: UploadRequest -> Response)
    requires UploadToBunny(env, path, contentType, send).Success?
    ensures var url := UploadToBunny(env, path, contentType, send).value;
      var host := CdnHost(env).value;
      && StartsWith(url, host + "/")
      && url[|host| + 1..] == path
  {
    var host := CdnHost(env).value;
    var url := UploadToBunny(env, path, contentType, send).value;
    assert IsBunnyConfigured(env);
    assert url == (host + "/") + path;
  }

  /** The request of an upload goes to an https URL that ends in "/" +
      path. */
  lemma RequestUrlLocatesPath(env: BunnyEnv, path: string, contentType: string)
    requires IsBunnyConfigured(env)
    ensures EndsWith(UploadRequestFor(env, path, contentType).value.url, "/" + path)
    ensures StartsWith(UploadRequestFor(env, path, contentType).value.url, "https://")
  {
    var storage := StorageHost(env);
    var url := UploadRequestFor(env, path, contentType).value.url;
    assert url == (storage + "/" + env.zone.value) + ("/" + path);
    assert url[..8] == storage[..8];
  }
}
