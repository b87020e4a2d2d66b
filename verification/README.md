# Webhook Wizard: the relay, the snippet generator and the send page

Webhook Wizard lets a user compose a Slack or Discord message, send it to a
webhook URL through the server, and copy an equivalent code snippet in one of
eight languages. This project models the parts of it that decide anything:

- **the relay** — the server action `sendWebhook` (`actions.dfy`, module
  `Actions`) and its HTTP twin, `POST /api/send-webhook` (`route.dfy`, module
  `SendWebhookRoute`). Each checks presence, then the platform's payload shape,
  then issues one JSON POST and reports the outcome;
- **the snippet generator** — `generateCode` and its eight templates
  (`code_generators.dfy` and `templates.dfy`). Each template splices the URL
  and a `JSON.stringify` rendering of the payload into fixed text. The Java
  template puts that text inside a Java string literal without escaping it,
  which breaks the literal for every object payload with a member (see Findings). The model
  keeps that generator as written and uses a corrected one that escapes the
  payload; `java_strings.dfy` models the Java string literal it needs;
- **the send page's logic** — its form state, `handlePlatformChange`, and the
  two places that build a payload from the form (`send_page.dfy`). The embed
  colour goes through `parseInt(…, 16)`, which is modelled by `parse_int.dfy`
  following section 19.2.5 of ECMA-262.

The JavaScript values the relay inspects are in `js_values.dfy`: JSON data,
`undefined` as `None`, `NaN`, JavaScript truthiness, and property lookup
where the last duplicate key wins. `strings.dfy` holds substring containment
and line joining.

Everything is a pure function, so the relay and the generator are
deterministic by construction. The outside world comes in as parameters:

- **The network** is a function `fetch: HttpPost -> FetchOutcome`. An outcome
  is either a response, with its status and body text, or a thrown exception
  with its message. "Never touches the network" is stated as "the result is
  the same for every `fetch`". "At most one request" is stated as "the result
  depends on `fetch` only through its answer to `Request(p)`".
- **`JSON.stringify`** is a function `Stringify = (Json, Layout) -> string`.
  `Layout` is either compact or indented by a given width. Every property of
  the generator holds whatever text that function produces.

Response status is modelled as a number with `ok` meaning 200–299, not as a
bare ok/not-ok flag, because the route passes the number on. Consequences
that follow from the code:

- the route answers 200 for every 2xx upstream status, including Discord's 204;
- a 400 or 500 from the route is ambiguous: it can come from the route itself
  or be passed through from upstream (`StatusClassification`);
- an upstream status `NextResponse.json` cannot build (304, or one outside
  200–599) makes the response constructor throw inside the `try`, so the
  route answers 500 where the server action reports a delivery failure.

## Model

| member | source | states |
|---|---|---|
| JsValues.Lookup | lib/actions.ts:22 | `payload.key` on an object is absent exactly when no entry has the key; otherwise it is the value of the last entry with that key |
| JsValues.Get | lib/actions.ts:22 | only an object can supply a value for a property read on the keys the relay uses |
| JsValues.Single | app/send/page.tsx:37 | a one-entry object literal `{key: value}` holds `value` under `key` and nothing under any other key |
| JsValues.Truthy | lib/actions.ts:13-33 | JavaScript truthiness as the relay's `!` tests read it: every array and object is truthy, even an empty one; a boolean exactly when it is `true`; a string exactly when it is non-empty; a number exactly when it is neither 0 nor `NaN`; `null` never |
| Actions.Validate | lib/actions.ts:13-34 | the request is refused as "missing fields" exactly when the URL or the payload is falsy; a Slack violation only for platform `slack`, a Discord one only for `discord` |
| Actions.ValidateAgreesWithShapeTable | lib/actions.ts:21-34 | the if-chain passes a request exactly when URL and payload are truthy and one of the platform's keys (`text`/`blocks`, `content`/`embeds`, none for other platforms) holds a truthy value |
| Actions.Request | lib/actions.ts:37-43 | the one POST goes to the given URL, with content type `application/json` and the payload as body |
| Actions.Deliver | lib/actions.ts:45-65 | success exactly when the status is 2xx, with the success message and no error; otherwise the body text or the exception message is both the error and the suffix of the message |
| Actions.SendWebhook | lib/actions.ts:10-66 | success exactly when validation passes and the single fetch is ok; a failure always carries an error; a refused request reports its violation's message and error text |
| Actions.RejectionTouchesNoNetwork | lib/actions.ts:13-34 | a refused request gives the same failed result whatever the network would answer |
| Actions.OneFetchAtMost | lib/actions.ts:36-43 | the result depends on the network only through its answer to the one request built from the parameters |
| Actions.MissingFieldsFirst | lib/actions.ts:13-19 | a falsy URL or payload gives the missing-fields result, whatever the platform and shape |
| Actions.SlackShapeRejected | lib/actions.ts:22-27 | a Slack payload with neither truthy `text` nor truthy `blocks` gives exactly the Slack error result |
| Actions.DiscordShapeRejected | lib/actions.ts:28-33 | a Discord payload with neither truthy `content` nor truthy `embeds` gives exactly the Discord error result |
| Actions.SlackTruthinessCases | lib/actions.ts:22 | truthiness, not presence, decides: `{text: ""}` is refused for Slack, `{blocks: []}` passes |
| Actions.MessagePayloadChecked | lib/actions.ts:22-33 | a `{text: m}` Slack payload or a `{content: m}` Discord payload passes exactly when `m` is non-empty, and otherwise fails with the platform's own violation |
| Actions.OtherPlatformSkipsShape | lib/actions.ts:21-34 | for any platform other than `slack` and `discord` only presence is checked |
| Actions.OutcomeMessages | lib/actions.ts:45-65 | the exact result for a 2xx answer, a non-2xx answer and a thrown exception |
| SendWebhookRoute.HandlePost | app/api/send-webhook/route.ts:3-36 | a refused request gets 400 with the violation's message. After the fetch, an ok answer gets 200. A non-ok answer passes its own status through, unless `NextResponse.json` cannot build that status (outside 200–599, or 304); then it throws inside the `try` and the route answers 500 with the runtime's error. An exception gets 500. The route never answers a status `NextResponse.json` refuses |
| SendWebhookRoute.Answer | app/api/send-webhook/route.ts:17-35 | the `try` block's reply to one fetch outcome: 200 with the success message for an ok answer; the upstream status with "Failed to send webhook. Error: " and the body text for a non-ok one `NextResponse.json` can build; 500 with "An error occurred while sending the webhook: " and the runtime's error for one it cannot build, or with the exception message for a thrown exception; never a status `NextResponse.json` refuses |
| SendWebhookRoute.RouteMessageMatchesAction | app/api/send-webhook/route.ts:6-34 | the route and the server action produce the same message for every request and every network answer, except an upstream status the route cannot pass on, where the route reports the runtime's error and the action the delivery failure |
| SendWebhookRoute.RouteSucceedsIffActionSucceeds | app/api/send-webhook/route.ts:26-31 | the route answers 200 exactly when the action reports success, and it never answers another 2xx status |
| SendWebhookRoute.NoContentReportedAsOk | app/api/send-webhook/route.ts:26-27 | an upstream 204 is reported as 200 with the success message |
| SendWebhookRoute.NotModifiedBecomesServerError | app/api/send-webhook/route.ts:29-34 | an upstream 304 makes the route answer 500 with the runtime's error, while the server action reports "Failed to send webhook" with the body text |
| SendWebhookRoute.StatusClassification | app/api/send-webhook/route.ts:6-34 | the route answers 400 exactly on a validation failure or an upstream 400. It answers 500 exactly on an exception, an upstream 500, or an upstream status it cannot pass on |
| ParseInt.DigitChar | app/send/page.tsx:45 | the lower-case digit for a value below 16 is a hexadecimal digit that reads back as that value |
| ParseInt.HexValue | app/send/page.tsx:45 | a run of `k` hexadecimal digits denotes a number below 16^k |
| ParseInt.TrimStart | app/send/page.tsx:45 | `parseInt` drops exactly the leading StrWhiteSpace characters: the result is a suffix, everything removed is white space, and what remains does not start with white space |
| ParseInt.HexRun | app/send/page.tsx:45 | `parseInt` reads the longest prefix of hexadecimal digits: a prefix, all digits, and followed by a non-digit or the end |
| ParseInt.ParseHex | app/send/page.tsx:45 | `parseInt(s, 16)` is `NaN` or an integer of magnitude below 16 to the length of `s`; the empty string gives `NaN`, and so does a string whose first character is neither white space, a sign nor a hexadecimal digit |
| ParseInt.DropFirst | app/send/page.tsx:45 | `slice(1)` leaves a string one character shorter, which put after the first character gives back the original; characters are counted as Unicode scalar values (see Left out); the empty string stays empty |
| ParseInt.ColorNumber | app/send/page.tsx:45 | the colour read from the field, `parseInt(embedColor.slice(1), 16)`, is a number only when the field has at least two characters, and then its magnitude is below 16 to the number of characters after the first |
| ParseInt.ToHex | app/send/page.tsx:237 | the picker's rendering of a colour has the requested number of hexadecimal digits |
| ParseInt.HexValueOfToHex | app/send/page.tsx:45 | reading back printed hexadecimal digits gives the number printed, when it fits |
| ParseInt.ParseAllHex | app/send/page.tsx:45 | a non-empty string of hexadecimal digits parses to its value, with no white-space, sign or `0x` rule intervening |
| ParseInt.HexRunOfAllHex | app/send/page.tsx:45 | on a string of hexadecimal digits the digit run is the whole string |
| ParseInt.PickerColorRoundTrip | app/send/page.tsx:235-240 | every `#rrggbb` the colour picker produces comes back from `parseInt(color.slice(1), 16)` as exactly the colour it encodes |
| ParseInt.PatternColorsFit | app/send/page.tsx:231 | every colour the field's pattern admits parses to a non-negative number below 2^24, and the three-digit form to one below 16^3 |
| ParseInt.EmptyColorIsNaN | app/send/page.tsx:45 | an empty colour field gives `NaN` |
| Templates.JavaScriptFrameNamesJson | lib/code-generators.ts:43 | the JavaScript template's own text names the JSON media type |
| Templates.PythonFrameNamesJson | lib/code-generators.ts:76 | the Python template's own text names the JSON media type |
| Templates.CurlFrameNamesJson | lib/code-generators.ts:98 | the cURL template's own text names the JSON media type |
| Templates.PhpFrameNamesJson | lib/code-generators.ts:118 | the PHP template's own text names the JSON media type |
| Templates.GoFrameNamesJson | lib/code-generators.ts:173 | the Go template's own text names the JSON media type |
| Templates.RubyFrameNamesJson | lib/code-generators.ts:254 | the Ruby template's own text names the JSON media type |
| Templates.JavaFrameNamesJson | lib/code-generators.ts:302 | the Java template's own text names the JSON media type |
| Templates.RustFrameOmitsJson | lib/code-generators.ts:196-236 | no part of the Rust template's literal text spells out the JSON media type |
| CodeGenerators.LanguageOf | lib/code-generators.ts:11-30 | the switch selects the language whose key equals the given string, and JavaScript for any string that is no language's key |
| CodeGenerators.KeyRoundTrip | lib/code-generators.ts:11-27 | each language's key selects that language, so the eight keys are distinct |
| CodeGenerators.Key | lib/code-generators.ts:11-27 | every `case` label of the switch is a lower-case word of at least two letters |
| CodeGenerators.FrameOf | lib/code-generators.ts:33-319 | each language's template serialises the payload with the indentation its generator passes to `JSON.stringify`: 2 for JavaScript, Python, PHP and Ruby, 4 for Go and Rust, none for cURL and Java |
| CodeGenerators.Fill | lib/code-generators.ts:33-60 | a filled template begins with the text before the URL, has the URL verbatim right after it, then the text between the holes verbatim, then the payload text verbatim, and ends with the text after the payload |
| CodeGenerators.Generate | lib/code-generators.ts:33-319 | every generator's output contains the URL; every generator except Java's contains the payload serialised in its own layout, and the corrected Java generator contains the escaped compact JSON text |
| CodeGenerators.JavaPayloadQuoted | lib/code-generators.ts:285 | in the Java template the payload sits between the opening quote of `PAYLOAD = "` and a closing quote |
| CodeGenerators.GenerateJavaAsWritten | lib/code-generators.ts:275-319 | the Java generator as written puts the compact JSON text verbatim right after the `PAYLOAD` literal's opening quote |
| CodeGenerators.JavaPayloadLiteralCutShort | lib/code-generators.ts:285 | when the JSON text opens with `{"`, as it does for any object with a member, the generator as written makes a `PAYLOAD` literal that closes after one character and whose value is `{`, not the payload |
| CodeGenerators.EscapedPayloadLiteral | lib/code-generators.ts:285 | escaped text filled into a template whose closing text opens with a quote makes a literal that closes at that quote and whose value is the text |
| CodeGenerators.Embedded | lib/code-generators.ts:285 | every template takes the payload text as it is, except Java's, which takes an escaped form that reads back as the text |
| CodeGenerators.JavaPayloadLiteralIsPayload | lib/code-generators.ts:285 | in the corrected Java snippet the `PAYLOAD` literal closes at the template's own closing quote, and its value is exactly the compact JSON text, whatever that text contains |
| JavaStrings.BodyLength | lib/code-generators.ts:285 | a Java literal body runs to the first quote that no escape takes: the closing quote is preceded by an even run of backslashes, and every quote before it by an odd run |
| JavaStrings.Unescape | lib/code-generators.ts:285 | the value a literal body denotes is no longer than the body, and a body with no backslash denotes itself |
| JavaStrings.EscapeChar | lib/code-generators.ts:285 | a character is written as itself exactly when it is not a quote, a backslash or a line break; those four become a two-character escape, a backslash and a character that stands for the original |
| JavaStrings.Escape | lib/code-generators.ts:285 | the escaped text is at least as long as the text and at most twice as long; its contents are fixed by `JavaStrings.UnescapeEscape` |
| JavaStrings.EscapedBodyLength | lib/code-generators.ts:285 | no quote inside escaped text closes a literal early: the body runs over the whole escaped text |
| JavaStrings.PlainTextUnescaped | lib/code-generators.ts:285 | text with no quote, backslash or line break is written unchanged |
| JavaStrings.UnescapeEscape | lib/code-generators.ts:285 | reading an escaped body back gives exactly the text that was escaped |
| JavaStrings.EscapedLiteral | lib/code-generators.ts:285 | escaped text followed by a quote is a literal body that closes at that quote and denotes the text |
| JavaStrings.EscapedLiteralAfter | lib/code-generators.ts:285 | the same holds wherever the literal starts inside a larger text |
| JavaStrings.LiteralClosedByQuote | lib/code-generators.ts:285 | a literal body that starts with `{"` closes after one character and denotes `{` |
| CodeGenerators.GenerateCode | lib/code-generators.ts:8-31 | the output contains the URL; a known key gives its own generator's output and any other string the JavaScript generator's |
| CodeGenerators.DispatchReachesOwnGenerator | lib/code-generators.ts:11-27 | each of the eight keys reaches its own generator |
| CodeGenerators.UnknownLanguageFallsBack | lib/code-generators.ts:28-29 | an unknown language gives exactly the `javascript` snippet |
| CodeGenerators.PlatformIsIgnored | lib/code-generators.ts:8-9 | the snippet depends only on language, URL and payload, never on the platform |
| CodeGenerators.PayloadLayoutPerLanguage | lib/code-generators.ts:36-285 | the payload is rendered with two-space indentation for JavaScript, Python, PHP and Ruby, four-space for Go and Rust, and compactly for cURL and Java, where the corrected generator escapes it |
| CodeGenerators.FrameTextInFill | lib/code-generators.ts:33-319 | text that occurs anywhere in a template's fixed text occurs in every snippet filled from that template, whatever URL and payload are spliced in |
| CodeGenerators.ContentTypeNamed | lib/code-generators.ts:33-319 | every snippet except Rust's contains the JSON media type whatever URL and payload it carries; Rust's literal text never contains it |
| SendPage.HandlePlatformChange | app/send/page.tsx:28-32 | switching platform sets it, clears the URL and the message, and keeps every other field |
| SendPage.PlatformChangeOverrides | app/send/page.tsx:28-32 | two platform switches in a row amount to the second alone |
| SendPage.EmbedPayload | app/send/page.tsx:39-48 | an embed payload has nothing under `text` or `content`, and a one-element `embeds` list whose element holds the title, the description and the colour under their own names |
| SendPage.PayloadWith | app/send/page.tsx:35-50 | exactly one of `text`, `content` and `embeds` is set: `text` holds the message on Slack; otherwise `content` holds it without embeds, and with embeds the embed payload carries the title, description and colour |
| SendPage.SendPayload | app/send/page.tsx:34-50 | the sent payload is the form's payload, and in embed mode its colour is always `parseInt` of the field without its first character |
| SendPage.SnippetPayload | app/send/page.tsx:67-83 | the shown payload is the form's payload; in embed mode an empty colour field gives colour 0 and any other field is parsed |
| SendPage.WebhookAction | app/send/page.tsx:34-56 | the page reports success exactly when the relay's checks pass on the sent payload and the one POST of that payload to the form's URL is answered ok; success needs a URL entered, and every failure carries an error |
| SendPage.GetCodeSnippet | app/send/page.tsx:67-85 | the snippet is the chosen language's generator applied to the form's URL and the shown payload; it always contains that URL, outside Java the shown payload serialised in the language's layout, and in Java that payload's compact text, escaped |
| SendPage.SlackPayloadIsText | app/send/page.tsx:36-37 | on Slack both paths build `{text: message}`, with or without embeds switched on |
| SendPage.PlainPayloadIsContent | app/send/page.tsx:38-49 | on any other platform without embeds both paths build `{content: message}` |
| SendPage.EmbedPayloadPassesDiscordCheck | app/send/page.tsx:39-48 | an embed payload holds a one-element `embeds` list, so it always passes the Discord shape check once a URL is given |
| SendPage.EmbedPayloadHasEmbeds | app/send/page.tsx:39-48 | whatever the colour, an embed payload is truthy, holds a truthy `embeds` list, and has nothing truthy under `text` or `content` |
| SendPage.SlackPayloadAcceptedIffMessage | app/send/page.tsx:36-56 | a Slack payload from the form passes the relay's checks exactly when the message is non-empty |
| SendPage.PlainDiscordAcceptedIffMessage | app/send/page.tsx:38-56 | a plain Discord payload from the form with an empty message is refused with the Discord error, and passes otherwise |
| SendPage.EmptyUrlIsMissing | app/send/page.tsx:52-56 | `webhookAction` run with an empty URL field gets the missing-fields result from the relay, whatever the payload |
| SendPage.SendAndSnippetPayloadsAgree | app/send/page.tsx:67-83 | the sent and the shown payloads agree when the colour field is non-empty; with an empty field and embeds on they differ only in the colour, `NaN` against 0 |
| SendPage.InitialFormIsRefused | app/send/page.tsx:19-56 | in the initial state the payload is `{content: ""}`, and `webhookAction` run on that state fails |

## Left out

- Parsing the request body (`request.json()` in the route) and a body that is not JSON are not modelled. The route is given the destructured fields.
- A platform or URL that is not a string (a number sent to the route, say) is not modelled. Both are strings here, and an absent URL is `None`.
- SendWebhookRoute.HandlePost: the text of the error `NextResponse.json` throws for a status it cannot build is a parameter (`rejection`), not the runtime's wording.
- ParseInt.ParseHex: numbers are integers or `NaN`. Three JavaScript values are abstracted away: `-0`, which `#-0` parses to, is 0 here; a digit run worth about 2^1024 or more (256 digits `f`, say) gives `Infinity` in JavaScript but an exact integer here; fractions, which only a request sent to the route directly could carry, are not modelled.
- ParseInt.DropFirst: removes one Unicode scalar value, while `slice(1)` removes one UTF-16 code unit. The two differ when the field's first character lies outside the Basic Multilingual Plane: `"\U{1F600}ff"` gives 255 here and `NaN` in JavaScript.
- ParseInt.HexValue: values are exact; the rounding of `parseInt` results above 2^53 to the nearest double is not modelled.
- `JSON.stringify` is a parameter: its output format, key order and escaping are not modelled, and nothing is claimed about the text it produces.
- Property reads are modelled for the four keys the relay reads, none of which any built-in prototype supplies. Inherited properties in general are not modelled.
- Whether the generated snippets are valid programs in their languages is not modelled. For instance, PHP and Go do not accept a JSON object as an expression. Apart from the Java payload literal (see Findings), the URL and payload are spliced in without escaping, exactly as the templates do.
- JavaStrings.Unescape: octal and `\u` escapes are not decoded, and an escape Java rejects is read as the character it escapes. The corrected generator never produces either.
- CodeGenerators.Generate: the Java case is the corrected, escaping generator (see Findings). The model's `generateCode("java", …)`, and so the page's Java snippet, differs from lib/code-generators.ts:285 for payloads whose compact JSON text contains a quote, a backslash or a line break. The generator as written is `CodeGenerators.GenerateJavaAsWritten`.
- CodeGenerators.GenerateCode: for `"java"` it returns the corrected generator's output, as `CodeGenerators.Generate` does, not lib/code-generators.ts:275-319 as written.
- SendPage.GetCodeSnippet: for the Java language the snippet comes from the corrected generator, as `CodeGenerators.Generate` does, so its `PAYLOAD` literal holds the escaped JSON text where the page as written shows it unescaped.
- The browser's own form validation is not modelled: the `required` attributes (app/send/page.tsx:208, 218, 229, 278, 308) and the colour `pattern` (app/send/page.tsx:231) can stop a submission before `webhookAction` runs. The page lemmas are about `webhookAction` itself.
- React state updates, toasts, the clipboard, the code editor and all rendering are not modelled. The page is modelled as the form state and the pure functions over it.
- The embed editor is only displayed for Discord, but the payload logic applies `useEmbed` to every non-Slack platform. The model follows the payload logic.
- The exact error text `String(error)` produces for a non-`Error` throw is not modelled. The exception message is a parameter.

## Findings

| source | as written | input that shows it | evidently intended | confidence | as-written member | corrected member |
|---|---|---|---|---|---|---|
| lib/code-generators.ts:285 | the Java snippet puts the compact JSON text between the quotes of the `PAYLOAD` string literal without escaping it | the page's plain Discord payload `{content: "hi"}`, whose compact JSON text `{"content":"hi"}` opens with `{"`: the literal closes after `{`, and the rest of the JSON is left outside any literal | `PAYLOAD` holds the JSON text, which needs its quotes and backslashes escaped | not executed | CodeGenerators.JavaPayloadLiteralCutShort | CodeGenerators.JavaPayloadLiteralIsPayload |
