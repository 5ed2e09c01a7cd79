/**
  Webhook identity and the decoder that extracts it from a webhook URL
  (`https://<host>/api/webhooks/<id>/<token>`).
*/
module Discord {
  import opened Common
  import opened ParseInt

  /** `DiscordWebhookAuth`: the id and token that identify a webhook. */
  datatype WebhookAuth = WebhookAuth(id: uint64, token: string)

  /** `url::ParseError`, the reasons the foreign URL parser rejects a string. */
  datatype UrlParseError =
    | EmptyHost
    | IdnaError
    | InvalidPort
    | InvalidIpv4Address
    | InvalidIpv6Address
    | InvalidDomainCharacter
    | RelativeUrlWithoutBase
    | RelativeUrlWithCannotBeABaseBase
    | SetHostOnCannotBeABaseUrl
    | Overflow

  /**
    The part of a parsed `url::Url` the decoder can observe. `pathSegments`
    is `None` for a URL that cannot be a base (`mailto:x`, `data:...`).
  */
  datatype Url = Url(scheme: string, host: Option<string>, pathSegments: Option<seq<string>>)

  /** `Url::parse`, supplied by the caller: the model does not reimplement it. */
  type UrlParser = string -> Result<Url, UrlParseError>

  /** `DiscordWebhookAuthUrlError`. */
  datatype WebhookUrlError =
    | UrlParseError(cause: UrlParseError)
    | UrlMissingPath
    | UrlPathMissingApi
    | UrlPathMissingWebhooks
    | UrlPathMissingId
    | IdParseError(kind: IntErrorKind)
    | UrlPathMissingToken

  /** `DiscordWebhookAuth::new`. */
  function New(id: uint64, token: string): (auth: WebhookAuth)
    ensures auth.id == id && auth.token == token
  {
    WebhookAuth(id, token)
  }

  /** The `path_segments()` iterator: the segments and how many `next()` has consumed. */
  datatype PathSegments = PathSegments(items: seq<string>, cursor: nat)
  {
    /** `Iterator::next`: the segment under the cursor, and the advanced iterator. */
    function Next(): (Option<string>, PathSegments)
    {
      if cursor < |items| then (Some(items[cursor]), PathSegments(items, cursor + 1))
      else (None, this)
    }
  }

  /**
    The path walk of `from_url`: successive `next()` calls on the segment
    iterator, each failure with its own error. Segments after the token are
    never looked at.
  */
  function FromPathSegments(segments: Option<seq<string>>): (r: Result<WebhookAuth, WebhookUrlError>)
    ensures segments.None? ==> r == Err(UrlMissingPath)
    ensures segments.Some? && (|segments.value| < 1 || segments.value[0] != "api") ==>
      r == Err(UrlPathMissingApi)
    ensures segments.Some? && |segments.value| >= 1 && segments.value[0] == "api" &&
            (|segments.value| < 2 || segments.value[1] != "webhooks") ==>
      r == Err(UrlPathMissingWebhooks)
    ensures segments.Some? && |segments.value| == 2 &&
            segments.value[0] == "api" && segments.value[1] == "webhooks" ==>
      r == Err(UrlPathMissingId)
    ensures r.Err? && r.error.IdParseError? <==>
      segments.Some? && |segments.value| >= 3 && segments.value[0] == "api" &&
      segments.value[1] == "webhooks" && !IsU64Literal(segments.value[2])
    ensures r.Err? && r.error.IdParseError? ==> ParseU64(segments.value[2]) == Err(r.error.kind)
    ensures segments.Some? && |segments.value| == 3 &&
            segments.value[0] == "api" && segments.value[1] == "webhooks" &&
            IsU64Literal(segments.value[2]) ==>
      r == Err(UrlPathMissingToken)
    ensures r.Ok? <==>
      segments.Some? && |segments.value| >= 4 && segments.value[0] == "api" &&
      segments.value[1] == "webhooks" && IsU64Literal(segments.value[2])
    ensures r.Ok? ==>
      r.value.id == DecimalValue(StripPlus(segments.value[2])) && r.value.token == segments.value[3]
  {
    match segments
    case None => Err(UrlMissingPath)
    case Some(items) =>
      var (first, afterFirst) := PathSegments(items, 0).Next();
      if first != Some("api") then Err(UrlPathMissingApi)
      else
        var (second, afterSecond) := afterFirst.Next();
        if second != Some("webhooks") then Err(UrlPathMissingWebhooks)
        else
          var (third, afterThird) := afterSecond.Next();
          match third
          case None => Err(UrlPathMissingId)
          case Some(idText) =>
            match ParseU64(idText)
            case Err(kind) => Err(IdParseError(kind))
            case Ok(id) =>
              var (fourth, _) := afterThird.Next();
              match fourth
              case None => Err(UrlPathMissingToken)
              case Some(token) => Ok(New(id, token))
  }

  /**
    `DiscordWebhookAuth::from_url`: parse the string, then walk its path.
    The scheme and the host of the parsed URL play no part in the outcome.
  */
  function FromUrl(url: string, parse: UrlParser): (r: Result<WebhookAuth, WebhookUrlError>)
    ensures parse(url).Err? ==> r == Err(UrlParseError(parse(url).error))
    ensures parse(url).Ok? ==> r == FromPathSegments(parse(url).value.pathSegments)
  {
    match parse(url)
    case Err(e) => Err(UrlParseError(e))
    case Ok(parsed) => FromPathSegments(parsed.pathSegments)
  }

  /** `https://discord.com/api/webhooks/123/abc` decodes to id 123 and token `abc`. */
  lemma DecodesWellFormedWebhookPath()
    ensures FromPathSegments(Some(["api", "webhooks", "123", "abc"])) == Ok(WebhookAuth(123, "abc"))
  {}

  /** A non-numeric id segment is reported as an id parse error, not a generic failure. */
  lemma RejectsNonNumericId()
    ensures FromPathSegments(Some(["api", "webhooks", "notanumber", "abc"])) == Err(IdParseError(InvalidDigit))
  {}

  /** A path without the `webhooks` segment is reported as exactly that. */
  lemma RejectsPathWithoutWebhooks()
    ensures FromPathSegments(Some(["api", "123", "abc"])) == Err(UrlPathMissingWebhooks)
  {}
}
