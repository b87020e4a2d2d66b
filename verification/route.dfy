/**
  The HTTP endpoint `POST /api/send-webhook` (app/api/send-webhook/route.ts):
  the same checks and the same single fetch as the server action, answered
  as an HTTP status with a JSON body `{message}`.
 */
module SendWebhookRoute {
  import opened JsValues
  import opened Actions

  /** `NextResponse.json({message}, {status})`. */
  datatype Reply = Reply(status: int, message: string)

  const BadRequest: int := 400
  const InternalServerError: int := 500
  /** The status `NextResponse.json` uses when none is given. */
  const DefaultStatus: int := 200

  /**
    The statuses `NextResponse.json` cannot build a response with: any status
    outside 200–599 (a `RangeError`), and 304, a null-body status that cannot
    carry the JSON body (a `TypeError`). The other null-body statuses are 204
    and 205, which are ok and never passed on, and 101 and 103, which lie
    below 200.
   */
  predicate Unrepresentable(status: int) {
    status < 200 || 599 < status || status == 304
  }

  /**
    The `try` block's answer to one fetch outcome. `rejection` gives the
    message of the error `NextResponse.json` throws for an unrepresentable
    status; it is thrown inside the `try`, so the `catch` turns it into a
    500.
   */
  function Answer(outcome: FetchOutcome, rejection: int -> string): (reply: Reply)
    ensures !Unrepresentable(reply.status)
    ensures outcome.Ok() ==> reply == Reply(DefaultStatus, SuccessMessage)
    ensures outcome.Responded? && !outcome.Ok() && !Unrepresentable(outcome.status) ==>
      reply == Reply(outcome.status, DeliveryFailurePrefix + outcome.bodyText)
    ensures outcome.Responded? && Unrepresentable(outcome.status) ==>
      reply == Reply(InternalServerError, ExceptionPrefix + rejection(outcome.status))
    ensures outcome.Threw? ==> reply == Reply(InternalServerError, ExceptionPrefix + outcome.message)
  {
    match outcome
    case Responded(status, bodyText) =>
      if 200 <= status <= 299 then Reply(DefaultStatus, "Webhook sent successfully.")
      else if Unrepresentable(status) then
        Reply(InternalServerError, "An error occurred while sending the webhook: " + rejection(status))
      else Reply(status, "Failed to send webhook. Error: " + bodyText)
    case Threw(message) =>
      Reply(InternalServerError, "An error occurred while sending the webhook: " + message)
  }

  /**
    The route handler, from the destructured request body and the fetch
    outcome: the checks answer 400 before any fetch, and the one fetch's
    outcome is answered by `Answer`. The route never answers a status
    `NextResponse.json` refuses.
   */
  function HandlePost(p: WebhookParams, fetch: HttpPost -> FetchOutcome, rejection: int -> string): (reply: Reply)
    ensures !Unrepresentable(reply.status)
    ensures Validate(p).Some? ==> reply == Reply(BadRequest, Validate(p).value.Message())
    ensures Validate(p).None? ==> reply == Answer(fetch(Request(p)), rejection)
  {
    if !UrlGiven(p.webhookUrl) || !Defined(p.payload) then
      Reply(BadRequest, "Webhook URL and payload are required.")
    else if p.platform == "slack" && !HasTruthy(p.payload.value, "text") && !HasTruthy(p.payload.value, "blocks") then
      Reply(BadRequest, "Slack webhook requires either text or blocks in the payload.")
    else if p.platform == "discord" && !HasTruthy(p.payload.value, "content") && !HasTruthy(p.payload.value, "embeds") then
      Reply(BadRequest, "Discord webhook requires either content or embeds in the payload.")
    else
      Answer(fetch(HttpPost(p.webhookUrl.value, "application/json", p.payload.value)), rejection)
  }

  /**
    The route and the server action agree on the message for every request
    and every network answer, except an upstream status the route cannot
    pass on: there the route reports the exception its own response threw.
   */
  lemma RouteMessageMatchesAction(p: WebhookParams, fetch: HttpPost -> FetchOutcome, rejection: int -> string)
    ensures Validate(p).Some? || !fetch(Request(p)).Responded? || !Unrepresentable(fetch(Request(p)).status) ==>
      HandlePost(p, fetch, rejection).message == SendWebhook(p, fetch).message
    ensures Validate(p).None? && fetch(Request(p)).Responded? && Unrepresentable(fetch(Request(p)).status) ==>
      && HandlePost(p, fetch, rejection).message == ExceptionPrefix + rejection(fetch(Request(p)).status)
      && SendWebhook(p, fetch).message == DeliveryFailurePrefix + fetch(Request(p)).bodyText
  {
  }

  /**
    The route answers 200 exactly when the action reports success. A failed
    delivery passes the upstream status through, and that status is never in
    the 2xx range, so it cannot be mistaken for success.
   */
  lemma RouteSucceedsIffActionSucceeds(p: WebhookParams, fetch: HttpPost -> FetchOutcome, rejection: int -> string)
    ensures HandlePost(p, fetch, rejection).status == 200 <==> SendWebhook(p, fetch).success
    ensures 200 <= HandlePost(p, fetch, rejection).status <= 299 ==> HandlePost(p, fetch, rejection).status == 200
  {
  }

  /** A 2xx upstream answer other than 200 (Discord's 204, say) is still reported as 200. */
  lemma NoContentReportedAsOk(p: WebhookParams, fetch: HttpPost -> FetchOutcome, rejection: int -> string)
    requires Validate(p).None? && fetch(Request(p)) == Responded(204, "")
    ensures HandlePost(p, fetch, rejection) == Reply(200, "Webhook sent successfully.")
  {
  }

  /**
    An upstream 304 cannot be passed on: the route answers 500 with the
    runtime's error, while the server action reports the delivery failure.
   */
  lemma NotModifiedBecomesServerError(p: WebhookParams, fetch: HttpPost -> FetchOutcome, rejection: int -> string)
    requires Validate(p).None? && fetch(Request(p)).Responded? && fetch(Request(p)).status == 304
    ensures HandlePost(p, fetch, rejection) ==
      Reply(500, "An error occurred while sending the webhook: " + rejection(304))
    ensures SendWebhook(p, fetch) ==
      WebhookResult(false, "Failed to send webhook. Error: " + fetch(Request(p)).bodyText, Some(fetch(Request(p)).bodyText))
  {
  }

  /**
    Statuses in the route's own vocabulary: 400 marks a validation failure
    unless upstream itself answered 400, and 500 marks an exception unless
    upstream itself answered 500 or a status the route cannot pass on.
   */
  lemma StatusClassification(p: WebhookParams, fetch: HttpPost -> FetchOutcome, rejection: int -> string)
    ensures HandlePost(p, fetch, rejection).status == 400 <==>
      Validate(p).Some? || (fetch(Request(p)).Responded? && fetch(Request(p)).status == 400)
    ensures HandlePost(p, fetch, rejection).status == 500 <==>
      Validate(p).None? &&
      (fetch(Request(p)).Threw? ||
       fetch(Request(p)).status == 500 || Unrepresentable(fetch(Request(p)).status))
  {
  }
}
