/**
 * The proxies a connection sends its requests through: `modifyUrl` rewrites
 * every URL an adapter requests.
 */
module Proxies {
  import opened JsValues

  /** A proxy instance with the configuration it was built from. */
  datatype ProxyInstance = Direct | CorsAnywhere(config: Config)

  /** The relay used when the CORS Anywhere proxy has no URL configured. */
  const DefaultRelay: string := "https://cors-anywhere.herokuapp.com/"

  /** `this.config.url || DefaultRelay`, as text. */
  function RelayBase(config: Config): (r: string)
    ensures !Truthy(Field(config, "url")) ==> r == DefaultRelay
    ensures Field(config, "url").Str? && Field(config, "url").s != "" ==> r == Field(config, "url").s
  {
    var u := Field(config, "url");
    if Truthy(u) then Render(u) else DefaultRelay
  }

  /** `modifyUrl(url)`. */
  function ModifyUrl(p: ProxyInstance, url: string): string {
    match p
    case Direct => url
    case CorsAnywhere(config) => RelayBase(config) + url
  }

  /** The direct proxy leaves URLs alone; the relay puts its own URL (or the
    * default relay) in front of the requested one, which stays intact at the end. */
  lemma ModifyUrlKeepsTarget(p: ProxyInstance, url: string)
    ensures p.Direct? ==> ModifyUrl(p, url) == url
    ensures p.CorsAnywhere? ==> ModifyUrl(p, url) == RelayBase(p.config) + url
    ensures |ModifyUrl(p, url)| >= |url| && ModifyUrl(p, url)[|ModifyUrl(p, url)| - |url|..] == url
    ensures p.CorsAnywhere? && !Truthy(Field(p.config, "url")) ==> ModifyUrl(p, url) == DefaultRelay + url
  {
  }
}
