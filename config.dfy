/**
  The configuration sections the bridge reads: where to listen for mail, and
  which webhook to post to.
*/
module Config {
  import opened Common
  import opened Discord

  /** `std::net::IpAddr`. */
  datatype IpAddr = V4(octets: seq<byte>) | V6(segments: seq<uint16>)

  /** `std::net::SocketAddr`: an address and a port. */
  datatype SocketAddr = SocketAddr(ip: IpAddr, port: uint16)

  /** `SmtpConfig`: the `[smtp]` section. */
  datatype SmtpConfig = SmtpConfig(listenAddr: IpAddr, listenPort: uint16, serviceName: Option<string>)

  /** `DiscordConfig`: the `[discord]` section; any of its three keys may be absent. */
  datatype DiscordConfig = DiscordConfig(
    webhookUrl: Option<string>,
    webhookId: Option<uint64>,
    webhookToken: Option<string>)

  /** `DiscordConfigError`. */
  datatype DiscordConfigError =
    | NeitherUrlNorPartsSpecified
    | ConfigMissingWebhookId
    | ConfigMissingWebhookToken
    | InvalidParamCombination
    | UrlError(cause: WebhookUrlError)

  /** `Into<SocketAddr> for &SmtpConfig` (and for `SmtpConfig`, which delegates to it). */
  function ListenSocket(config: SmtpConfig): (addr: SocketAddr)
    ensures addr.ip == config.listenAddr && addr.port == config.listenPort
  {
    SocketAddr(config.listenAddr, config.listenPort)
  }

  /**
    `DiscordConfig::get_auth`: the webhook identity is given either as a URL
    alone or as an id together with a token; every other combination of the
    three keys is a configuration error of its own.
  */
  function GetAuth(config: DiscordConfig, parse: UrlParser): (r: Result<WebhookAuth, DiscordConfigError>)
    ensures config.webhookUrl.None? && config.webhookId.None? && config.webhookToken.None? ==>
      r == Err(NeitherUrlNorPartsSpecified)
    ensures config.webhookUrl.None? && config.webhookId.None? && config.webhookToken.Some? ==>
      r == Err(ConfigMissingWebhookId)
    ensures config.webhookUrl.None? && config.webhookId.Some? && config.webhookToken.None? ==>
      r == Err(ConfigMissingWebhookToken)
    ensures config.webhookUrl.None? && config.webhookId.Some? && config.webhookToken.Some? ==>
      r == Ok(WebhookAuth(config.webhookId.value, config.webhookToken.value))
    ensures config.webhookUrl.Some? && config.webhookId.None? && config.webhookToken.None? ==>
      (r.Ok? <==> FromUrl(config.webhookUrl.value, parse).Ok?) &&
      (r.Ok? ==> r.value == FromUrl(config.webhookUrl.value, parse).value) &&
      (r.Err? ==> r.error == UrlError(FromUrl(config.webhookUrl.value, parse).error))
    ensures config.webhookUrl.Some? && (config.webhookId.Some? || config.webhookToken.Some?) ==>
      r == Err(InvalidParamCombination)
    ensures r.Ok? ==>
      (config.webhookUrl.None? && config.webhookId.Some? && config.webhookToken.Some?) ||
      (config.webhookUrl.Some? && config.webhookId.None? && config.webhookToken.None?)
  {
    match (config.webhookUrl, config.webhookId, config.webhookToken)
    case (None, None, None) => Err(NeitherUrlNorPartsSpecified)
    case (None, None, Some(_)) => Err(ConfigMissingWebhookId)
    case (None, Some(_), None) => Err(ConfigMissingWebhookToken)
    case (None, Some(id), Some(token)) => Ok(New(id, token))
    case (Some(url), None, None) =>
      (match FromUrl(url, parse)
       case Ok(auth) => Ok(auth)
       case Err(e) => Err(UrlError(e)))
    case (Some(_), Some(_), None) => Err(InvalidParamCombination)
    case (Some(_), None, Some(_)) => Err(InvalidParamCombination)
    case (Some(_), Some(_), Some(_)) => Err(InvalidParamCombination)
  }

  /** A well-formed webhook URL in the configuration resolves to the id and token it spells. */
  lemma ResolvesConfiguredUrl(parse: UrlParser, url: string)
    requires parse(url).Ok? && parse(url).value.pathSegments == Some(["api", "webhooks", "123", "abc"])
    ensures GetAuth(DiscordConfig(Some(url), None, None), parse) == Ok(WebhookAuth(123, "abc"))
  {}
}
