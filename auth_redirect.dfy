/** The redirect URL builder of `src/utils/auth.ts`. The page's
    `window.location.hostname` is the `hostname` parameter. */
module AuthRedirect {

  const LocalBase := "http://localhost:5173"
  const DeployedBase := "https://picklepulse.netlify.app"

  /** The base URL: the development server exactly for the host `localhost`. */
  function BaseUrl(hostname: string): (base: string)
    ensures base == LocalBase <==> hostname == "localhost"
    ensures base != LocalBase ==> base == DeployedBase
  {
    if hostname == "localhost" then LocalBase else DeployedBase
  }

  /** `path.startsWith('/') ? path : `/${path}``. */
  function NormalizePath(path: string): (p: string)
    ensures |p| >= 1 && p[0] == '/'
    ensures |path| >= 1 && path[0] == '/' ==> p == path
    ensures !(|path| >= 1 && path[0] == '/') ==> p == "/" + path
  {
    if |path| >= 1 && path[0] == '/' then path else "/" + path
  }

  /** An already normalised path is left as it is. */
  lemma NormalizeIdempotent(path: string)
    ensures NormalizePath(NormalizePath(path)) == NormalizePath(path)
  {
  }

  /** At most one slash is added: the path is recovered by dropping the
      slash the normaliser added, if it added one. */
  lemma NormalizeAddsOneSlash(path: string)
    ensures NormalizePath(path) == path || NormalizePath(path)[1..] == path
    ensures NormalizePath("") == "/"
  {
  }

  /** `getRedirectURL(path)`: the base followed by the normalised path. */
  function GetRedirectUrl(hostname: string, path: string): (url: string)
    ensures url == BaseUrl(hostname) + NormalizePath(path)
    ensures url[..|BaseUrl(hostname)|] == BaseUrl(hostname)
    ensures |url| > |BaseUrl(hostname)| && url[|BaseUrl(hostname)|] == '/'
  {
    BaseUrl(hostname) + NormalizePath(path)
  }

  /** The URL splits back into its base and its normalised path. */
  lemma {:induction false} RedirectUrlSplits(hostname: string, path: string)
    ensures var url := GetRedirectUrl(hostname, path);
      var base := BaseUrl(hostname);
      url[|base|..] == NormalizePath(path)
      && (hostname == "localhost" ==> url[..21] == "http://localhost:5173")
      && (path == "" ==> url == base + "/")
  {
    var url := GetRedirectUrl(hostname, path);
    var base := BaseUrl(hostname);
    assert url == base + NormalizePath(path);
  }
}
