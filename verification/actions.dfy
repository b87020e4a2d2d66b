/**
  The server action `sendWebhook` (lib/actions.ts): a presence check, a
  platform-specific payload-shape check, then one POST whose outcome is
  mapped to `{success, message, error?}`.

  The network is a parameter: `fetch` maps the one request the relay would
  send to what came back. Nothing else is consulted, so the relay is a total
  function of its parameters and that outcome.
 */
module Actions {
  import opened JsValues

  /** The fields the relay destructures from its argument; absent ones are `None`. */
  datatype WebhookParams = WebhookParams(platform: string, webhookUrl: Option<string>, payload: Option<Json>)

  /** The one POST the relay issues: JSON content type, body `JSON.stringify(payload)`. */
  datatype HttpPost = HttpPost(url: string, contentType: string, body: Json)

  /**
    What `fetch` (and, for a non-ok answer, `response.text()`) produced: a
    response with its status and body text, or an exception with its message
    (`error.message`, or `String(error)` for a non-Error throw).
   */
  datatype FetchOutcome = Responded(status: int, bodyText: string) | Threw(message: string)
  {
    /** `response.ok`: the status lies in the range 200 to 299. */
    predicate Ok() {
      Responded? && 200 <= status <= 299
    }
  }

  /** The reasons the relay refuses a request before touching the network. */
  datatype Violation = MissingFields | InvalidSlack | InvalidDiscord
  {
    function Message(): string {
      match this
      case MissingFields => "Webhook URL and payload are required."
      case InvalidSlack => "Slack webhook requires either text or blocks in the payload."
      case InvalidDiscord => "Discord webhook requires either content or embeds in the payload."
    }

    function ErrorText(): string {
      match this
      case MissingFields => "Missing required fields"
      case InvalidSlack => "Invalid payload for Slack platform"
      case InvalidDiscord => "Invalid payload for Discord platform"
    }
  }

  /** The action's return value; `error` is absent on success. */
  datatype WebhookResult = WebhookResult(success: bool, message: string, error: Option<string>)

  const SuccessMessage: string := "Webhook sent successfully."
  const DeliveryFailurePrefix: string := "Failed to send webhook. Error: "
  const ExceptionPrefix: string := "An error occurred while sending the webhook: "

  /** `!webhookUrl` is false: the URL is present and not the empty string. */
  predicate UrlGiven(url: Option<string>) {
    url.Some? && url.value != ""
  }

  /** `payload.key` is truthy. */
  predicate HasTruthy(payload: Json, key: string) {
    Defined(Get(payload, key))
  }

  /**
    The platform-specific shape rule as a table: the keys of which at least
    one must hold a truthy value. Other platforms name no keys and impose
    nothing.
   */
  function RequiredKeys(platform: string): seq<string> {
    if platform == "slack" then ["text", "blocks"]
    else if platform == "discord" then ["content", "embeds"]
    else []
  }

  predicate ShapeAccepted(platform: string, payload: Json) {
    RequiredKeys(platform) == [] ||
    exists i :: 0 <= i < |RequiredKeys(platform)| && HasTruthy(payload, RequiredKeys(platform)[i])
  }

  /**
    The validation steps in the order the action runs them: presence first,
    then the shape check for the named platform. `None` lets the request
    through to the network.
   */
  function Validate(p: WebhookParams): (v: Option<Violation>)
    ensures v == Some(MissingFields) <==> !UrlGiven(p.webhookUrl) || !Defined(p.payload)
    ensures v == Some(InvalidSlack) ==> p.platform == "slack"
    ensures v == Some(InvalidDiscord) ==> p.platform == "discord"
  {
    if !UrlGiven(p.webhookUrl) || !Defined(p.payload) then Some(MissingFields)
    else if p.platform == "slack" && !HasTruthy(p.payload.value, "text") && !HasTruthy(p.payload.value, "blocks") then
      Some(InvalidSlack)
    else if p.platform == "discord" && !HasTruthy(p.payload.value, "content") && !HasTruthy(p.payload.value, "embeds") then
      Some(InvalidDiscord)
    else None
  }

  /**
    The if-chain of the action agrees with the table of required keys: a
    request passes exactly when URL and payload are truthy and one of the
    platform's keys holds a truthy value (or the platform names none).
   */
  lemma ValidateAgreesWithShapeTable(p: WebhookParams)
    ensures Validate(p).None? <==>
      UrlGiven(p.webhookUrl) && Defined(p.payload) && ShapeAccepted(p.platform, p.payload.value)
  {
    if UrlGiven(p.webhookUrl) && Defined(p.payload) {
      var payload, keys := p.payload.value, RequiredKeys(p.platform);
      if p.platform == "slack" || p.platform == "discord" {
        if HasTruthy(payload, keys[0]) {
          assert 0 < |keys| && HasTruthy(payload, keys[0]);
        } else if HasTruthy(payload, keys[1]) {
          assert 1 < |keys| && HasTruthy(payload, keys[1]);
        }
      }
    }
  }

  /** The request sent once validation has passed. */
  function Request(p: WebhookParams): (post: HttpPost)
    requires Validate(p).None?
    ensures post.url == p.webhookUrl.value && post.body == p.payload.value
    ensures post.contentType == JsonMediaType
  {
    HttpPost(p.webhookUrl.value, JsonMediaType, p.payload.value)
  }

  /** The try block's mapping of one fetch outcome to the action's result. */
  function Deliver(outcome: FetchOutcome): (r: WebhookResult)
    ensures r.success <==> outcome.Ok()
    ensures r.success ==> r.message == SuccessMessage && r.error.None?
    ensures outcome.Responded? && !outcome.Ok() ==>
      r.error == Some(outcome.bodyText) && r.message == DeliveryFailurePrefix + outcome.bodyText
    ensures outcome.Threw? ==>
      r.error == Some(outcome.message) && r.message == ExceptionPrefix + outcome.message
  {
    match outcome
    case Responded(status, bodyText) =>
      if outcome.Ok() then WebhookResult(true, SuccessMessage, None)
      else WebhookResult(false, DeliveryFailurePrefix + bodyText, Some(bodyText))
    case Threw(message) =>
      WebhookResult(false, ExceptionPrefix + message, Some(message))
  }

  /** `sendWebhook`: validate, and only if that passes, fetch once and map the outcome. */
  function SendWebhook(p: WebhookParams, fetch: HttpPost -> FetchOutcome): (r: WebhookResult)
    ensures r.success <==> Validate(p).None? && fetch(Request(p)).Ok()
    ensures r.success ==> r.message == SuccessMessage && r.error.None?
    ensures !r.success ==> r.error.Some?
    ensures Validate(p).Some? ==>
      r.message == Validate(p).value.Message() && r.error == Some(Validate(p).value.ErrorText())
  {
    match Validate(p)
    case Some(v) => WebhookResult(false, v.Message(), Some(v.ErrorText()))
    case None => Deliver(fetch(Request(p)))
  }

  /**
    A request that fails validation never reaches the network: the result is
    the same whatever `fetch` would have answered.
   */
  lemma RejectionTouchesNoNetwork(p: WebhookParams, fetch1: HttpPost -> FetchOutcome, fetch2: HttpPost -> FetchOutcome)
    requires Validate(p).Some?
    ensures SendWebhook(p, fetch1) == SendWebhook(p, fetch2)
    ensures !SendWebhook(p, fetch1).success
  {
  }

  /**
    At most one fetch: the result depends on `fetch` only through its answer
    to the single request built from the parameters.
   */
  lemma OneFetchAtMost(p: WebhookParams, fetch1: HttpPost -> FetchOutcome, fetch2: HttpPost -> FetchOutcome)
    requires Validate(p).None?
    requires fetch1(Request(p)) == fetch2(Request(p))
    ensures SendWebhook(p, fetch1) == SendWebhook(p, fetch2)
  {
  }

  /** A falsy URL or payload is reported as missing, whatever the platform or payload shape. */
  lemma MissingFieldsFirst(p: WebhookParams, fetch: HttpPost -> FetchOutcome)
    requires !UrlGiven(p.webhookUrl) || !Defined(p.payload)
    ensures SendWebhook(p, fetch) ==
      WebhookResult(false, "Webhook URL and payload are required.", Some("Missing required fields"))
  {
  }

  /** Slack: with neither a truthy `text` nor a truthy `blocks` the request is refused. */
  lemma SlackShapeRejected(url: string, payload: Json, fetch: HttpPost -> FetchOutcome)
    requires url != "" && Truthy(payload)
    requires !HasTruthy(payload, "text") && !HasTruthy(payload, "blocks")
    ensures SendWebhook(WebhookParams("slack", Some(url), Some(payload)), fetch) ==
      WebhookResult(false, "Slack webhook requires either text or blocks in the payload.",
                    Some("Invalid payload for Slack platform"))
  {
  }

  /** Discord: with neither a truthy `content` nor a truthy `embeds` the request is refused. */
  lemma DiscordShapeRejected(url: string, payload: Json, fetch: HttpPost -> FetchOutcome)
    requires url != "" && Truthy(payload)
    requires !HasTruthy(payload, "content") && !HasTruthy(payload, "embeds")
    ensures SendWebhook(WebhookParams("discord", Some(url), Some(payload)), fetch) ==
      WebhookResult(false, "Discord webhook requires either content or embeds in the payload.",
                    Some("Invalid payload for Discord platform"))
  {
  }

  /**
    Truthiness, not presence, decides the shape check: `{text: ""}` is
    refused for Slack while `{blocks: []}` goes out.
   */
  lemma SlackTruthinessCases(url: string)
    requires url != ""
    ensures Validate(WebhookParams("slack", Some(url), Some(Single("text", JString(""))))) == Some(InvalidSlack)
    ensures Validate(WebhookParams("slack", Some(url), Some(Single("blocks", JArray([]))))) == None
  {
  }

  /**
    A one-field message payload, `{text}` for Slack or `{content}` for
    Discord, passes exactly when the message is non-empty; an empty one is
    refused with the platform's own violation.
   */
  lemma MessagePayloadChecked(url: string, m: string)
    requires url != ""
    ensures Validate(WebhookParams("slack", Some(url), Some(Single("text", JString(m))))) ==
      if m == "" then Some(InvalidSlack) else None
    ensures Validate(WebhookParams("discord", Some(url), Some(Single("content", JString(m))))) ==
      if m == "" then Some(InvalidDiscord) else None
  {
    assert !HasTruthy(Single("text", JString(m)), "blocks");
    assert !HasTruthy(Single("content", JString(m)), "embeds");
  }

  /** A platform other than `slack` and `discord` skips the shape check entirely. */
  lemma OtherPlatformSkipsShape(p: WebhookParams)
    requires p.platform != "slack" && p.platform != "discord"
    ensures Validate(p).None? <==> UrlGiven(p.webhookUrl) && Defined(p.payload)
  {
  }

  /** The exact results for each fetch outcome of a validated request. */
  lemma OutcomeMessages(p: WebhookParams, fetch: HttpPost -> FetchOutcome)
    requires Validate(p).None?
    ensures fetch(Request(p)).Ok() ==>
      SendWebhook(p, fetch) == WebhookResult(true, "Webhook sent successfully.", None)
    ensures fetch(Request(p)).Responded? && !fetch(Request(p)).Ok() ==>
      var body := fetch(Request(p)).bodyText;
      SendWebhook(p, fetch) == WebhookResult(false, "Failed to send webhook. Error: " + body, Some(body))
    ensures fetch(Request(p)).Threw? ==>
      var m := fetch(Request(p)).message;
      SendWebhook(p, fetch) == WebhookResult(false, "An error occurred while sending the webhook: " + m, Some(m))
  {
  }
}
