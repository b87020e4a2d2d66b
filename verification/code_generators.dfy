/**
  `generateCode` (lib/code-generators.ts): a switch over eight language keys,
  falling back to JavaScript, and eight generators that each splice the
  webhook URL and a serialisation of the payload into a fixed template,
  without escaping either.

  `JSON.stringify` is a parameter: every property here holds whatever text
  it produces for a given value and layout.
 */
module CodeGenerators {
  import opened JsValues
  import opened Strings
  import opened Templates
  import JavaStrings

  datatype Language = JavaScript | Python | Curl | Php | Go | Rust | Ruby | Java

  /** The `case` label that selects each language: a lower-case word. */
  function Key(l: Language): (k: string)
    ensures 2 <= |k| && forall i :: 0 <= i < |k| ==> 'a' <= k[i] <= 'z'
  {
    match l
    case JavaScript => "javascript"
    case Python => "python"
    case Curl => "curl"
    case Php => "php"
    case Go => "go"
    case Rust => "rust"
    case Ruby => "ruby"
    case Java => "java"
  }

  /** The key names one of the eight languages. */
  predicate Known(key: string) {
    exists l: Language :: Key(l) == key
  }

  /** The switch: a known key selects its own language, any other string JavaScript. */
  function LanguageOf(key: string): (l: Language)
    ensures Key(l) == key || (l == JavaScript && !Known(key))
  {
    if key == "javascript" then JavaScript
    else if key == "python" then Python
    else if key == "curl" then Curl
    else if key == "php" then Php
    else if key == "go" then Go
    else if key == "rust" then Rust
    else if key == "ruby" then Ruby
    else if key == "java" then Java
    else JavaScript
  }

  /** Each language's key dispatches back to that language: the keys are distinct. */
  lemma KeyRoundTrip(l: Language)
    ensures LanguageOf(Key(l)) == l
  {
  }

  /**
    Each language's template. The payload is serialised with two-space
    indentation for JavaScript, Python, PHP and Ruby, four-space for Go and
    Rust, and compactly for cURL and Java.
   */
  function FrameOf(l: Language): (f: Frame)
    ensures f.layout ==
      if l in {JavaScript, Python, Php, Ruby} then Indent(2)
      else if l in {Go, Rust} then Indent(4)
      else Compact
  {
    match l
    case JavaScript => JavaScriptFrame
    case Python => PythonFrame
    case Curl => CurlFrame
    case Php => PhpFrame
    case Go => GoFrame
    case Rust => RustFrame
    case Ruby => RubyFrame
    case Java => JavaFrame
  }

  /** The generators' argument; `platform` is destructured away and never read. */
  datatype CodeGeneratorParams = CodeGeneratorParams(webhookUrl: string, payload: Json, platform: string)

  /** `JSON.stringify(v)` for `Compact`, `JSON.stringify(v, null, w)` for `Indent(w)`. */
  type Stringify = (Json, Layout) -> string

  /**
    A template literal with its two holes filled: the URL and the payload
    text stand in the output exactly as given, right after the fixed text
    that precedes them, and the output opens and closes with the frame's
    literal text.
   */
  function Fill(f: Frame, url: string, payloadText: string): (code: string)
    ensures |code| == |Unlines(f.head)| + |url| + |Unlines(f.mid)| + |payloadText| + |Unlines(f.tail)|
    ensures OccursAt(code, url, |Unlines(f.head)|)
    ensures OccursAt(code, Unlines(f.mid), |Unlines(f.head)| + |url|)
    ensures OccursAt(code, payloadText, |Unlines(f.head)| + |url| + |Unlines(f.mid)|)
    ensures code[..|Unlines(f.head)|] == Unlines(f.head)
    ensures code[|code| - |Unlines(f.tail)|..] == Unlines(f.tail)
  {
    var head, mid, tail := Unlines(f.head), Unlines(f.mid), Unlines(f.tail);
    var code := head + url + mid + payloadText + tail;
    assert code[|head|..|head| + |url|] == url;
    assert code[|head| + |url|..|head| + |url| + |mid|] == mid;
    assert code[|head| + |url| + |mid|..|head| + |url| + |mid| + |payloadText|] == payloadText;
    code
  }

  /** Where the payload text begins in a frame filled with this URL. */
  function PayloadStart(f: Frame, url: string): nat {
    |Unlines(f.head)| + |url| + |Unlines(f.mid)|
  }

  /**
    In the Java template the payload is the body of a string literal: the
    text before it ends with the opening `"` of `PAYLOAD = "`, and the text
    after it starts with the closing `"`.
   */
  lemma JavaPayloadQuoted()
    ensures var mid, tail := Unlines(JavaFrame.mid), Unlines(JavaFrame.tail);
      && |mid| > 0 && mid[|mid| - 1] == '"'
      && |tail| > 0 && tail[0] == '"'
  {
    var mid, tail := Unlines(JavaFrame.mid), Unlines(JavaFrame.tail);
    assert mid == JavaFrame.mid[0] + "\n" + JavaFrame.mid[1];
    assert tail == JavaFrame.tail[0] + "\n" + Unlines(JavaFrame.tail[1..]);
  }

  /**
    `generateJava` as written: the compact JSON is put between the quotes of
    the `PAYLOAD` literal without escaping.
   */
  function GenerateJavaAsWritten(webhookUrl: string, payload: Json, stringify: Stringify): (code: string)
    ensures OccursAt(code, stringify(payload, Compact), PayloadStart(JavaFrame, webhookUrl))
  {
    Fill(JavaFrame, webhookUrl, stringify(payload, Compact))
  }

  /**
    The JSON text of any object with at least one member opens with `{"`.
    Spliced in as written, that quote closes the `PAYLOAD` literal: the
    literal's value is `{`, not the payload, and the rest of the JSON text
    lands outside any literal.
   */
  lemma JavaPayloadLiteralCutShort(webhookUrl: string, payload: Json, stringify: Stringify)
    requires var text := stringify(payload, Compact); |text| >= 2 && text[0] == '{' && text[1] == '"'
    ensures var body := GenerateJavaAsWritten(webhookUrl, payload, stringify)[PayloadStart(JavaFrame, webhookUrl)..];
      && JavaStrings.BodyLength(body) == 1
      && JavaStrings.Unescape(body[..1]) == "{"
      && JavaStrings.Unescape(body[..1]) != stringify(payload, Compact)
  {
    var code := GenerateJavaAsWritten(webhookUrl, payload, stringify);
    JavaStrings.LiteralClosedByQuote(code, PayloadStart(JavaFrame, webhookUrl), stringify(payload, Compact));
  }

  /**
    Escaped text filled into any frame whose closing text opens with `"`
    makes the literal that starts at the payload close at that quote, with
    exactly the text as its value.
   */
  lemma EscapedPayloadLiteral(f: Frame, url: string, text: string)
    requires |Unlines(f.tail)| > 0 && Unlines(f.tail)[0] == '"'
    ensures var code, start := Fill(f, url, JavaStrings.Escape(text)), PayloadStart(f, url);
      && start <= |code|
      && JavaStrings.BodyLength(code[start..]) == |JavaStrings.Escape(text)|
      && JavaStrings.Unescape(code[start..][..|JavaStrings.Escape(text)|]) == text
  {
    var e, tail := JavaStrings.Escape(text), Unlines(f.tail);
    var pre := Unlines(f.head) + url + Unlines(f.mid);
    var code := Fill(f, url, e);
    assert code == pre + e + tail;
    assert PayloadStart(f, url) == |pre|;
    JavaStrings.EscapedLiteralAfter(pre, text, tail);
  }

  /**
    How the payload text is written into a language's template. Java's
    payload stands inside a string literal, so it is escaped there; every
    other template takes the text as it is.
   */
  function Embedded(l: Language, text: string): (written: string)
    ensures l != Java ==> written == text
    ensures l == Java ==> JavaStrings.Unescape(written) == text
  {
    if l == Java then
      JavaStrings.UnescapeEscape(text);
      JavaStrings.Escape(text)
    else text
  }

  /**
    One language's generator, `generateJavaScript` through `generateJava`,
    with Java's corrected to escape the payload.
   */
  function Generate(l: Language, webhookUrl: string, payload: Json, stringify: Stringify): (code: string)
    ensures Contains(code, webhookUrl)
    ensures l != Java ==> Contains(code, stringify(payload, FrameOf(l).layout))
    ensures l == Java ==> Contains(code, JavaStrings.Escape(stringify(payload, Compact)))
  {
    Fill(FrameOf(l), webhookUrl, Embedded(l, stringify(payload, FrameOf(l).layout)))
  }

  /**
    The corrected Java snippet: the `PAYLOAD` literal closes at the
    template's own closing quote and its value is exactly the compact JSON
    text, whatever that text contains.
   */
  lemma JavaPayloadLiteralIsPayload(webhookUrl: string, payload: Json, stringify: Stringify)
    ensures var code, start := Generate(Java, webhookUrl, payload, stringify), PayloadStart(JavaFrame, webhookUrl);
      var text := stringify(payload, Compact);
      && start <= |code|
      && JavaStrings.BodyLength(code[start..]) == |JavaStrings.Escape(text)|
      && JavaStrings.Unescape(code[start..][..|JavaStrings.Escape(text)|]) == text
  {
    var text := stringify(payload, Compact);
    assert FrameOf(Java) == JavaFrame && JavaFrame.layout == Compact;
    assert Generate(Java, webhookUrl, payload, stringify) == Fill(JavaFrame, webhookUrl, JavaStrings.Escape(text));
    JavaPayloadQuoted();
    EscapedPayloadLiteral(JavaFrame, webhookUrl, text);
  }

  /** `generateCode(language, params)`. */
  function GenerateCode(language: string, params: CodeGeneratorParams, stringify: Stringify): (code: string)
    ensures Contains(code, params.webhookUrl)
    ensures Known(language) ==> code == Generate(LanguageOf(language), params.webhookUrl, params.payload, stringify)
    ensures !Known(language) ==> code == Generate(JavaScript, params.webhookUrl, params.payload, stringify)
  {
    Generate(LanguageOf(language), params.webhookUrl, params.payload, stringify)
  }

  /** Each of the eight keys reaches its own generator. */
  lemma DispatchReachesOwnGenerator(l: Language, params: CodeGeneratorParams, stringify: Stringify)
    ensures GenerateCode(Key(l), params, stringify) == Generate(l, params.webhookUrl, params.payload, stringify)
  {
    KeyRoundTrip(l);
  }

  /** An unrecognised language gives exactly the JavaScript snippet. */
  lemma UnknownLanguageFallsBack(language: string, params: CodeGeneratorParams, stringify: Stringify)
    requires !Known(language)
    ensures GenerateCode(language, params, stringify) == GenerateCode("javascript", params, stringify)
  {
    KeyRoundTrip(JavaScript);
  }

  /**
    The output is a function of language, URL and payload alone: two calls
    that agree on those give the same text whatever their platforms.
   */
  lemma PlatformIsIgnored(language: string, p1: CodeGeneratorParams, p2: CodeGeneratorParams, stringify: Stringify)
    requires p1.webhookUrl == p2.webhookUrl && p1.payload == p2.payload
    ensures GenerateCode(language, p1, stringify) == GenerateCode(language, p2, stringify)
  {
  }

  /**
    The payload is serialised with two-space indentation for JavaScript,
    Python, PHP and Ruby, four-space for Go and Rust, and compactly for cURL
    and Java.
   */
  lemma PayloadLayoutPerLanguage(language: string, params: CodeGeneratorParams, stringify: Stringify)
    ensures var l, code := LanguageOf(language), GenerateCode(language, params, stringify);
      && (l in {JavaScript, Python, Php, Ruby} ==> Contains(code, stringify(params.payload, Indent(2))))
      && (l in {Go, Rust} ==> Contains(code, stringify(params.payload, Indent(4))))
      && (l == Curl ==> Contains(code, stringify(params.payload, Compact)))
      && (l == Java ==> Contains(code, JavaStrings.Escape(stringify(params.payload, Compact))))
  {
    var l := LanguageOf(language);
    assert GenerateCode(language, params, stringify) == Generate(l, params.webhookUrl, params.payload, stringify);
  }

  /** Text that the frame's own lines contain is contained in every filling of the frame. */
  lemma FrameTextInFill(f: Frame, url: string, payloadText: string, needle: string)
    requires Contains(Unlines(f.head), needle) || Contains(Unlines(f.mid), needle) || Contains(Unlines(f.tail), needle)
    ensures Contains(Fill(f, url, payloadText), needle)
  {
    var code := Fill(f, url, payloadText);
    var head, mid, tail := Unlines(f.head), Unlines(f.mid), Unlines(f.tail);
    if Contains(head, needle) {
      assert OccursAt(code, head, 0);
      ContainsTransitive(code, head, needle);
    } else if Contains(mid, needle) {
      assert OccursAt(code, mid, |head| + |url|);
      ContainsTransitive(code, mid, needle);
    } else {
      assert OccursAt(code, tail, |code| - |tail|);
      ContainsTransitive(code, tail, needle);
    }
  }

  /**
    Every snippet except Rust's names the JSON media type in its own text, so
    the output contains it whatever URL and payload are spliced in. Rust's
    literal text never spells it out.
   */
  lemma ContentTypeNamed(l: Language, webhookUrl: string, payload: Json, stringify: Stringify)
    ensures l != Rust ==> Contains(Generate(l, webhookUrl, payload, stringify), JsonMediaType)
    ensures l == Rust ==>
      && !Contains(Unlines(FrameOf(l).head), JsonMediaType)
      && !Contains(Unlines(FrameOf(l).mid), JsonMediaType)
      && !Contains(Unlines(FrameOf(l).tail), JsonMediaType)
  {
    var f := FrameOf(l);
    var text := Embedded(l, stringify(payload, f.layout));
    assert Generate(l, webhookUrl, payload, stringify) == Fill(f, webhookUrl, text);
    match l {
      case Rust => RustFrameOmitsJson();
      case JavaScript => JavaScriptFrameNamesJson();
      case Python => PythonFrameNamesJson();
      case Curl => CurlFrameNamesJson();
      case Php => PhpFrameNamesJson();
      case Go => GoFrameNamesJson();
      case Ruby => RubyFrameNamesJson();
      case Java => JavaFrameNamesJson();
    }
    if l != Rust {
      FrameTextInFill(f, webhookUrl, text, JsonMediaType);
    }
  }
}
