/** The updater's HTTP helpers (auto-claude-ui/src/main/updater/http-client.ts):
    building a proxied GitHub URL, the capped collection of an error
    response's body, and the direct-then-proxy fallback around one request.
    A request itself is an oracle from the URL to its value or to the message
    of the error it rejects with. */
module HttpClient {
  import opened Common
  import opened Strings

  /** The built-in proxy used when the caller gives none. */
  const DefaultGithubProxy: string := "https://mirror.ghproxy.com"

  /** At most this many characters of an error response's body are kept. */
  const MaxErrorSize: nat := 10 * 1024

  // ---------------------------------------------------------------------
  // Proxy URLs

  /** `s.replace(/\/+$/, '')` */
  function StripTrailingSlashes(s: string): string {
    if s != [] && s[|s| - 1] == '/' then StripTrailingSlashes(s[..|s| - 1]) else s
  }

  /** The stripped string is the prefix of `s` left after removing its run
      of trailing slashes; this pins the result down uniquely. */
  lemma {:induction false} StripTrailingSlashesSpec(s: string)
    ensures var r := StripTrailingSlashes(s);
      r <= s && (r != [] ==> r[|r| - 1] != '/')
      && forall i :: |r| <= i < |s| ==> s[i] == '/'
    decreases |s|
  {
    if s != [] && s[|s| - 1] == '/' {
      StripTrailingSlashesSpec(s[..|s| - 1]);
    }
  }

  predicate AllSlashes(s: string) {
    forall i :: 0 <= i < |s| ==> s[i] == '/'
  }

  /** `normalizeProxyBase`: the base without trailing slashes; null when no
      base is given or nothing but slashes is left. */
  function NormalizeProxyBase(proxyBase: Option<string>): (r: Option<string>)
    ensures r.None? <==> proxyBase.None? || AllSlashes(proxyBase.value)
    ensures r.Some? ==> r.value != [] && r.value[|r.value| - 1] != '/' && r.value <= proxyBase.value
    ensures r.Some? ==> forall i :: |r.value| <= i < |proxyBase.value| ==> proxyBase.value[i] == '/'
  {
    match proxyBase
    case None => None
    case Some(p) =>
      StripTrailingSlashesSpec(p);
      var stripped := StripTrailingSlashes(p);
      if stripped == "" then None else Some(stripped)
  }

  /** Normalising a normalised base changes nothing. */
  lemma NormalizeProxyBaseIdempotent(proxyBase: Option<string>)
    ensures NormalizeProxyBase(NormalizeProxyBase(proxyBase)) == NormalizeProxyBase(proxyBase)
  {
    var n := NormalizeProxyBase(proxyBase);
    if n.Some? {
      assert !AllSlashes(n.value) by { assert n.value[|n.value| - 1] != '/'; }
      StripTrailingSlashesSpec(n.value);
      assert StripTrailingSlashes(n.value) == n.value;
    }
  }

  /** The proxy prefix `buildProxiedUrl` uses: the caller's normalised base,
      else the built-in proxy when the fallback is enabled. */
  function ProxyBase(proxyBase: Option<string>, enableFallback: bool): Option<string> {
    var n := NormalizeProxyBase(proxyBase);
    if n.Some? then n else if enableFallback then Some(DefaultGithubProxy) else None
  }

  /** `buildProxiedUrl`: null without a base; the URL itself when it already
      carries the base; otherwise the base, a slash and the URL.
      `enableFallback` is `ENABLE_PROXY_FALLBACK`, which is true unless
      `AUTO_CLAUDE_DISABLE_PROXY_FALLBACK` is `true`. */
  function BuildProxiedUrl(url: string, proxyBase: Option<string>, enableFallback: bool): (r: Option<string>)
    ensures r.None? <==> NormalizeProxyBase(proxyBase).None? && !enableFallback
    ensures NormalizeProxyBase(proxyBase).Some? ==> r.Some? && StartsWith(r.value, NormalizeProxyBase(proxyBase).value)
    ensures NormalizeProxyBase(proxyBase).None? && enableFallback ==> r.Some? && StartsWith(r.value, DefaultGithubProxy)
    ensures r.Some? ==> r.value == url || r.value == ProxyBase(proxyBase, enableFallback).value + "/" + url
    ensures r.Some? && StartsWith(url, ProxyBase(proxyBase, enableFallback).value) ==> r.value == url
  {
    match ProxyBase(proxyBase, enableFallback)
    case None => None
    case Some(base) => if StartsWith(url, base) then Some(url) else Some(base + "/" + url)
  }

  /** Proxying a proxied URL again leaves it as it is: no double prefix. */
  lemma BuildProxiedUrlIdempotent(url: string, proxyBase: Option<string>, enableFallback: bool)
    requires BuildProxiedUrl(url, proxyBase, enableFallback).Some?
    ensures var once := BuildProxiedUrl(url, proxyBase, enableFallback).value;
      BuildProxiedUrl(once, proxyBase, enableFallback) == Some(once)
  {
    var base := ProxyBase(proxyBase, enableFallback).value;
    var once := BuildProxiedUrl(url, proxyBase, enableFallback).value;
    if !StartsWith(url, base) {
      assert once == base + "/" + url;
      assert once[..|base|] == base;
    }
  }

  // ---------------------------------------------------------------------
  // Error responses

  /** The part of the received body that is kept. */
  function Capped(received: string): string {
    if |received| <= MaxErrorSize then received else received[..MaxErrorSize]
  }

  /** The kept body is bounded, a prefix of what was received, and all of
      it while it fits. */
  lemma CappedSpec(received: string)
    ensures |Capped(received)| <= MaxErrorSize
    ensures Capped(received) <= received
    ensures |received| <= MaxErrorSize <==> Capped(received) == received
  {
  }

  /** Receiving more never changes what was already kept. */
  lemma CappedGrows(received: string, more: string)
    ensures Capped(received) <= Capped(received + more)
  {
    assert (received + more)[..|received|] == received;
  }

  /** The body collected by the `data` handler of a response whose status is
      not 200 (lines 52-57 and 141-145 are the same code). `received` is
      every chunk so far, concatenated. */
  class ErrorBody {
    var errorData: string
    ghost var received: string

    ghost predicate Valid()
      reads this
    {
      errorData == Capped(received)
    }

    constructor()
      ensures Valid() && errorData == "" && received == ""
    {
      errorData := "";
      received := "";
    }

    /** One `data` event: while the kept body is under the cap, append as
        much of the chunk as fits. */
    method OnData(chunk: string)
      requires Valid()
      modifies this
      ensures Valid() && received == old(received) + chunk
      ensures old(errorData) <= errorData && |errorData| <= MaxErrorSize
    {
      if |errorData| < MaxErrorSize {
        var room := MaxErrorSize - |errorData|;
        var piece := if |chunk| <= room then chunk else chunk[..room];
        assert errorData == received;
        if |chunk| > room {
          assert (received + chunk)[..MaxErrorSize] == received + chunk[..room];
        }
        errorData := errorData + piece;
      } else {
        CappedGrows(received, chunk);
        assert |Capped(received + chunk)| <= MaxErrorSize;
      }
      received := received + chunk;
      CappedSpec(received);
    }
  }

  /** The rejection message of the `end` handler: the status code and the
      kept body, else the status message, else a fixed text. */
  function ErrorMessage(statusCode: int, errorData: string, statusMessage: Option<string>): (msg: string)
    ensures var prefix := "HTTP " + IntToString(statusCode) + ": ";
      |msg| > |prefix| && msg[..|prefix|] == prefix
      && (errorData != "" ==> msg[|prefix|..] == errorData)
      && (errorData == "" && statusMessage.Some? && statusMessage.value != "" ==> msg[|prefix|..] == statusMessage.value)
      && (errorData == "" && (statusMessage.None? || statusMessage.value == "") ==> msg[|prefix|..] == "No error details")
  {
    var detail :=
      if errorData != "" then errorData
      else if statusMessage.Some? && statusMessage.value != "" then statusMessage.value
      else "No error details";
    "HTTP " + IntToString(statusCode) + ": " + detail
  }

  // ---------------------------------------------------------------------
  // Direct request with a proxy fallback

  /** One request to a URL (`fetchJson` or `downloadFile`): its value, or
      the message of the error it rejects with. */
  type Request<T> = string -> Result<T, string>

  const RetryAdvice: string := "请检查网络或配置 AUTO_CLAUDE_GITHUB_PROXY 后重试。"

  /** The error thrown when both the direct and the proxied request fail;
      `what` names the operation. */
  function BothFailed(what: string, primary: string, proxy: string): (msg: string)
    ensures EndsWith(msg, RetryAdvice)
  {
    what + "：直连 " + primary + "；代理 " + proxy + "。" + RetryAdvice
  }

  /** The shared shape of `fetchJsonWithFallback` and
      `downloadFileWithFallback`: the direct request first; only when it
      fails, one request to the proxied URL; without a proxied URL the
      direct error is rethrown unchanged. `requested` lists the URLs asked
      for, in order. */
  method WithFallback<T>(what: string, url: string, proxyBase: Option<string>, enableFallback: bool,
                         request: Request<T>)
    returns (r: Result<T, string>, requested: seq<string>)
    ensures 1 <= |requested| <= 2 && requested[0] == url
    ensures r.Ok? ==> r == request(requested[|requested| - 1])
    ensures r.Err? ==> forall i :: 0 <= i < |requested| ==> request(requested[i]).Err?
    ensures request(url).Ok? ==> requested == [url] && r == request(url)
    ensures request(url).Err? && BuildProxiedUrl(url, proxyBase, enableFallback).None? ==>
      requested == [url] && r == request(url)
    ensures request(url).Err? && BuildProxiedUrl(url, proxyBase, enableFallback).Some? ==>
      var proxied := BuildProxiedUrl(url, proxyBase, enableFallback).value;
      requested == [url, proxied]
      && (request(proxied).Ok? ==> r == request(proxied))
      && (request(proxied).Err? ==> r == Err(BothFailed(what, request(url).error, request(proxied).error)))
  {
    requested := [url];
    var primary := request(url);
    if primary.Ok? {
      return primary, requested;
    }
    var proxiedUrl := BuildProxiedUrl(url, proxyBase, enableFallback);
    if proxiedUrl.None? {
      return primary, requested;
    }
    requested := requested + [proxiedUrl.value];
    var viaProxy := request(proxiedUrl.value);
    if viaProxy.Ok? {
      return viaProxy, requested;
    }
    r := Err(BothFailed(what, primary.error, viaProxy.error));
  }

  /** `fetchJsonWithFallback` */
  method FetchJsonWithFallback(url: string, proxyBase: Option<string>, enableFallback: bool,
                               fetchJson: Request<Json>)
    returns (r: Result<Json, string>, requested: seq<string>)
    ensures 1 <= |requested| <= 2 && requested[0] == url
    ensures r.Ok? ==> r == fetchJson(requested[|requested| - 1])
    ensures r.Err? ==> forall i :: 0 <= i < |requested| ==> fetchJson(requested[i]).Err?
    ensures fetchJson(url).Ok? ==> requested == [url] && r == fetchJson(url)
    ensures fetchJson(url).Err? && BuildProxiedUrl(url, proxyBase, enableFallback).None? ==>
      requested == [url] && r == fetchJson(url)
    ensures fetchJson(url).Err? && BuildProxiedUrl(url, proxyBase, enableFallback).Some? ==>
      var proxied := BuildProxiedUrl(url, proxyBase, enableFallback).value;
      requested == [url, proxied]
      && (fetchJson(proxied).Ok? ==> r == fetchJson(proxied))
      && (fetchJson(proxied).Err? ==> r == Err(BothFailed("检查更新失败", fetchJson(url).error, fetchJson(proxied).error)))
    ensures r.Err? && |requested| == 2 ==>
      r.error == BothFailed("检查更新失败", fetchJson(url).error, fetchJson(requested[1]).error)
  {
    r, requested := WithFallback("检查更新失败", url, proxyBase, enableFallback, fetchJson);
  }

  /** `downloadFileWithFallback`: both attempts write to the same
      destination. */
  method DownloadFileWithFallback(url: string, destPath: string, proxyBase: Option<string>, enableFallback: bool,
                                  downloadFile: (string, string) -> Result<(), string>)
    returns (r: Result<(), string>, requested: seq<string>)
    ensures 1 <= |requested| <= 2 && requested[0] == url
    ensures r.Ok? <==> exists i :: 0 <= i < |requested| && downloadFile(requested[i], destPath).Ok?
    ensures r.Err? ==> forall i :: 0 <= i < |requested| ==> downloadFile(requested[i], destPath).Err?
    ensures downloadFile(url, destPath).Ok? ==> requested == [url]
    ensures downloadFile(url, destPath).Err? && BuildProxiedUrl(url, proxyBase, enableFallback).None? ==>
      requested == [url] && r == downloadFile(url, destPath)
    ensures downloadFile(url, destPath).Err? && BuildProxiedUrl(url, proxyBase, enableFallback).Some? ==>
      var proxied := BuildProxiedUrl(url, proxyBase, enableFallback).value;
      requested == [url, proxied]
      && (downloadFile(proxied, destPath).Ok? ==> r == downloadFile(proxied, destPath))
      && (downloadFile(proxied, destPath).Err? ==>
            r == Err(BothFailed("下载更新失败", downloadFile(url, destPath).error, downloadFile(proxied, destPath).error)))
    ensures r.Err? && |requested| == 2 ==>
      r.error == BothFailed("下载更新失败", downloadFile(url, destPath).error, downloadFile(requested[1], destPath).error)
  {
    r, requested := WithFallback("下载更新失败", url, proxyBase, enableFallback, u => downloadFile(u, destPath));
  }
}
