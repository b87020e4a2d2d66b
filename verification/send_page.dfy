/**
  The logic of the send page (app/send/page.tsx) that is not rendering: the
  form state, the platform switch that resets part of it, and the two places
  that turn the form into a payload, one for sending and one for the code
  snippet. The payload feeds the relay's shape check, so properties of the
  page reach across into the relay.
 */
module SendPage {
  import opened JsValues
  import ParseInt
  import Actions
  import CodeGenerators
  import Strings
  import JavaStrings
  import Templates

  /** The page's `useState` fields. */
  datatype Form = Form(
    platform: string,
    webhookUrl: string,
    message: string,
    language: string,
    useEmbed: bool,
    embedTitle: string,
    embedDescription: string,
    embedColor: string)

  /** The initial state of every field. */
  const InitialForm: Form := Form("discord", "", "", "javascript", false, "", "", "#000000")

  /**
    `handlePlatformChange`: switch platform and clear the URL and the
    message; everything else is kept.
   */
  function HandlePlatformChange(f: Form, value: string): (g: Form)
    ensures g.platform == value && g.webhookUrl == "" && g.message == ""
    ensures g.language == f.language && g.useEmbed == f.useEmbed
    ensures g.embedTitle == f.embedTitle && g.embedDescription == f.embedDescription
    ensures g.embedColor == f.embedColor
  {
    f.(platform := value, webhookUrl := "", message := "")
  }

  /** Switching twice is switching once to the second platform. */
  lemma PlatformChangeOverrides(f: Form, first: string, second: string)
    ensures HandlePlatformChange(HandlePlatformChange(f, first), second) == HandlePlatformChange(f, second)
  {
  }

  /**
    `{embeds: [{title, description, color}]}`: read back by property access,
    the payload holds a one-element `embeds` list whose element carries the
    three fields, and nothing under `text` or `content`.
   */
  function EmbedPayload(title: string, description: string, color: Number): (p: Json)
    ensures Get(p, "text").None? && Get(p, "content").None?
    ensures Get(p, "embeds").Some? && Get(p, "embeds").value.JArray?
    ensures var items := Get(p, "embeds").value.items;
      && |items| == 1
      && Get(items[0], "title") == Some(JString(title))
      && Get(items[0], "description") == Some(JString(description))
      && Get(items[0], "color") == Some(JNumber(color))
  {
    var fields := [
      Member("title", JString(title)),
      Member("description", JString(description)),
      Member("color", JNumber(color))];
    assert fields[..2][..1] == fields[..1];
    assert Lookup(fields[..2], "title") == Some(JString(title));
    assert Lookup(fields[..2], "description") == Some(JString(description));
    Single("embeds", JArray([JObject(fields)]))
  }

  /**
    The payload for the form, given the embed colour as computed by the
    caller: `{text}` for Slack, otherwise `{embeds: [...]}` when embeds are
    on and `{content}` when they are off. Exactly one of the three keys is
    set, and the message reaches the payload only outside embed mode.
   */
  function PayloadWith(f: Form, color: Number): (p: Json)
    ensures f.platform == "slack" ==>
      Get(p, "text") == Some(JString(f.message)) && Get(p, "content").None? && Get(p, "embeds").None?
    ensures f.platform != "slack" && !f.useEmbed ==>
      Get(p, "content") == Some(JString(f.message)) && Get(p, "text").None? && Get(p, "embeds").None?
    ensures f.platform != "slack" && f.useEmbed ==> p == EmbedPayload(f.embedTitle, f.embedDescription, color)
  {
    if f.platform == "slack" then Single("text", JString(f.message))
    else if f.useEmbed then EmbedPayload(f.embedTitle, f.embedDescription, color)
    else Single("content", JString(f.message))
  }

  /**
    The payload `webhookAction` sends. Outside embed mode the colour field
    is not consulted; in embed mode the colour is always parsed from it.
   */
  function SendPayload(f: Form): (p: Json)
    ensures f.platform == "slack" || !f.useEmbed ==> p == PayloadWith(f, NaN)
    ensures f.platform != "slack" && f.useEmbed ==>
      p == EmbedPayload(f.embedTitle, f.embedDescription, ParseInt.ColorNumber(f.embedColor))
  {
    PayloadWith(f, ParseInt.ColorNumber(f.embedColor))
  }

  /**
    The payload `getCodeSnippet` shows. Outside embed mode the colour field
    is not consulted; in embed mode an empty colour field gives colour 0 and
    any other is parsed.
   */
  function SnippetPayload(f: Form): (p: Json)
    ensures f.platform == "slack" || !f.useEmbed ==> p == PayloadWith(f, NaN)
    ensures f.platform != "slack" && f.useEmbed && f.embedColor == "" ==>
      p == EmbedPayload(f.embedTitle, f.embedDescription, Int(0))
    ensures f.platform != "slack" && f.useEmbed && f.embedColor != "" ==>
      p == EmbedPayload(f.embedTitle, f.embedDescription, ParseInt.ColorNumber(f.embedColor))
  {
    PayloadWith(f, if f.embedColor != "" then ParseInt.ColorNumber(f.embedColor) else Int(0))
  }

  /**
    `webhookAction`: send the form's payload through the server action. It
    succeeds only with a URL entered and an ok answer to the one POST of the
    sent payload to that URL; every failure carries an error.
   */
  function WebhookAction(f: Form, fetch: Actions.HttpPost -> Actions.FetchOutcome): (r: Actions.WebhookResult)
    ensures r.success <==>
      && Actions.Validate(Actions.WebhookParams(f.platform, Some(f.webhookUrl), Some(SendPayload(f)))).None?
      && fetch(Actions.HttpPost(f.webhookUrl, JsonMediaType, SendPayload(f))).Ok()
    ensures r.success ==> f.webhookUrl != ""
    ensures !r.success ==> r.error.Some?
  {
    var p := Actions.WebhookParams(f.platform, Some(f.webhookUrl), Some(SendPayload(f)));
    assert Actions.Validate(p).None? ==> Actions.Request(p) == Actions.HttpPost(f.webhookUrl, JsonMediaType, SendPayload(f));
    Actions.SendWebhook(p, fetch)
  }

  /**
    `getCodeSnippet`: the snippet for the form's language, URL and payload.
    It is the chosen language's generator applied to the form's URL and the
    snippet payload, so it always carries the URL the form would send to,
    verbatim; outside Java it carries the snippet payload serialised in the
    language's layout, and in Java that payload's compact text, escaped.
   */
  function GetCodeSnippet(f: Form, stringify: CodeGenerators.Stringify): (code: string)
    ensures code == CodeGenerators.Generate(CodeGenerators.LanguageOf(f.language), f.webhookUrl, SnippetPayload(f), stringify)
    ensures Strings.Contains(code, f.webhookUrl)
    ensures var l := CodeGenerators.LanguageOf(f.language);
      l != CodeGenerators.Java ==>
        Strings.Contains(code, stringify(SnippetPayload(f), CodeGenerators.FrameOf(l).layout))
    ensures CodeGenerators.LanguageOf(f.language) == CodeGenerators.Java ==>
      Strings.Contains(code, JavaStrings.Escape(stringify(SnippetPayload(f), Templates.Compact)))
  {
    var payload := SnippetPayload(f);
    var code := CodeGenerators.GenerateCode(f.language,
      CodeGenerators.CodeGeneratorParams(f.webhookUrl, payload, f.platform), stringify);
    assert code == CodeGenerators.Generate(CodeGenerators.LanguageOf(f.language), f.webhookUrl, payload, stringify);
    code
  }

  /** On Slack the payload is `{text: message}`, whether or not embeds are switched on. */
  lemma SlackPayloadIsText(f: Form)
    requires f.platform == "slack"
    ensures SendPayload(f) == JObject([Member("text", JString(f.message))])
    ensures SnippetPayload(f) == SendPayload(f)
    ensures SendPayload(f.(useEmbed := !f.useEmbed)) == SendPayload(f)
  {
  }

  /** Any other platform without embeds sends `{content: message}`. */
  lemma PlainPayloadIsContent(f: Form)
    requires f.platform != "slack" && !f.useEmbed
    ensures SendPayload(f) == JObject([Member("content", JString(f.message))])
    ensures SnippetPayload(f) == SendPayload(f)
  {
  }

  /**
    With embeds on, the payload holds a one-element `embeds` list, so it
    passes the Discord shape check even with empty title and description.
   */
  lemma EmbedPayloadPassesDiscordCheck(f: Form)
    requires f.platform != "slack" && f.useEmbed
    ensures Get(SendPayload(f), "embeds").Some?
    ensures var embeds := Get(SendPayload(f), "embeds").value; embeds.JArray? && |embeds.items| == 1
    ensures Truthy(SendPayload(f)) && Actions.HasTruthy(SendPayload(f), "embeds")
    ensures f.webhookUrl != "" ==>
      Actions.Validate(Actions.WebhookParams(f.platform, Some(f.webhookUrl), Some(SendPayload(f)))).None?
  {
    EmbedPayloadHasEmbeds(f.embedTitle, f.embedDescription, ParseInt.ColorNumber(f.embedColor));
  }

  /** Whatever its colour, an embed payload is a truthy object with a truthy `embeds` list. */
  lemma EmbedPayloadHasEmbeds(title: string, description: string, color: Number)
    ensures var p := EmbedPayload(title, description, color);
      && Truthy(p) && Actions.HasTruthy(p, "embeds")
      && !Actions.HasTruthy(p, "text") && !Actions.HasTruthy(p, "content")
  {
  }

  /**
    A Slack payload built by the page passes the relay's checks exactly when
    the message is non-empty (and a URL has been entered).
   */
  lemma SlackPayloadAcceptedIffMessage(f: Form)
    requires f.platform == "slack" && f.webhookUrl != ""
    ensures Actions.Validate(Actions.WebhookParams(f.platform, Some(f.webhookUrl), Some(SendPayload(f)))).None?
      <==> f.message != ""
  {
    SlackPayloadIsText(f);
    Actions.MessagePayloadChecked(f.webhookUrl, f.message);
  }

  /**
    The same holds for a plain Discord message: an empty message is refused
    with the Discord error, never sent.
   */
  lemma PlainDiscordAcceptedIffMessage(f: Form)
    requires f.platform == "discord" && !f.useEmbed && f.webhookUrl != ""
    ensures f.message == "" ==>
      Actions.Validate(Actions.WebhookParams(f.platform, Some(f.webhookUrl), Some(SendPayload(f)))) == Some(Actions.InvalidDiscord)
    ensures f.message != "" ==>
      Actions.Validate(Actions.WebhookParams(f.platform, Some(f.webhookUrl), Some(SendPayload(f)))).None?
  {
    PlainPayloadIsContent(f);
    Actions.MessagePayloadChecked(f.webhookUrl, f.message);
  }

  /** An empty URL field is always reported as a missing field, whatever the payload. */
  lemma EmptyUrlIsMissing(f: Form, fetch: Actions.HttpPost -> Actions.FetchOutcome)
    requires f.webhookUrl == ""
    ensures WebhookAction(f, fetch) ==
      Actions.WebhookResult(false, "Webhook URL and payload are required.", Some("Missing required fields"))
  {
  }

  /**
    The sent payload and the snippet's payload agree whenever the colour
    field is non-empty. With an empty colour field and embeds on they differ,
    and only in the colour: `NaN` in the sent payload, 0 in the snippet.
   */
  lemma SendAndSnippetPayloadsAgree(f: Form)
    ensures f.embedColor != "" ==> SendPayload(f) == SnippetPayload(f)
    ensures f.embedColor == "" && f.platform != "slack" && f.useEmbed ==>
      && SendPayload(f) == EmbedPayload(f.embedTitle, f.embedDescription, NaN)
      && SnippetPayload(f) == EmbedPayload(f.embedTitle, f.embedDescription, Int(0))
      && SendPayload(f) != SnippetPayload(f)
  {
    if f.embedColor == "" {
      ParseInt.EmptyColorIsNaN();
    }
  }

  /** In the initial state the payload is an empty `content`, which the relay refuses. */
  lemma InitialFormIsRefused(fetch: Actions.HttpPost -> Actions.FetchOutcome)
    ensures SendPayload(InitialForm) == JObject([Member("content", JString(""))])
    ensures !WebhookAction(InitialForm, fetch).success
  {
    PlainPayloadIsContent(InitialForm);
    EmptyUrlIsMissing(InitialForm, fetch);
  }
}
