/**
  Java string literals, as far as the Java snippet needs them: where the body
  of a literal opened by `"` ends, the value that body denotes, and the
  escaping that lets any text stand between the quotes (sections 3.10.5 and
  3.10.7 of the Java Language Specification). Escaping and reading back are
  partners: a body made by `Escape` ends exactly where it was meant to, and
  denotes exactly the text that was escaped.
 */
module JavaStrings {

  /** The number of backslashes in the run that ends just before index `i`. */
  function BackslashesBefore(s: string, i: nat): (k: nat)
    requires i <= |s|
    ensures k <= i
  {
    if i == 0 || s[i - 1] != '\\' then 0 else 1 + BackslashesBefore(s, i - 1)
  }

  /**
    The character at `i` belongs to an escape sequence: an odd run of
    backslashes precedes it, so the last of them takes it.
   */
  predicate TakenByEscape(s: string, i: nat)
    requires i <= |s|
  {
    BackslashesBefore(s, i) % 2 == 1
  }

  /**
    The length of a literal body that starts at the beginning of `s`: it
    runs to the first `"` not taken by an escape, or to the end of `s` when
    there is none. A backslash always takes the next character with it.
   */
  function BodyLength(s: string): (n: nat)
    ensures n <= |s|
    ensures n < |s| ==> s[n] == '"' && !TakenByEscape(s, n)
    ensures forall i :: 0 <= i < n && s[i] == '"' ==> TakenByEscape(s, i)
    ensures forall i :: 0 <= i < n && s[i] == '"' ==> 0 < i && s[i - 1] == '\\'
  {
    if |s| == 0 then 0
    else if s[0] == '"' then 0
    else if s[0] == '\\' && |s| >= 2 then
      var n := BodyLength(s[2..]);
      assert BackslashesBefore(s, 2) % 2 == 0 by {
        if s[1] == '\\' { assert BackslashesBefore(s, 2) == 2 + BackslashesBefore(s, 0); }
      }
      forall j | 0 <= j <= n
        ensures BackslashesBefore(s[2..], j) % 2 == BackslashesBefore(s, 2 + j) % 2
      {
        RunParityInSuffix(s, 2, j);
      }
      assert BackslashesBefore(s, 1) == 1;
      2 + n
    else
      var n := BodyLength(s[1..]);
      if s[0] != '\\' then
        forall j | 0 <= j <= n
          ensures BackslashesBefore(s[1..], j) % 2 == BackslashesBefore(s, 1 + j) % 2
        {
          RunParityInSuffix(s, 1, j);
        }
        1 + n
      else
        1 + n
  }

  /**
    Cutting a text where an even run of backslashes ends does not change
    which later characters escapes take.
   */
  lemma {:induction false} RunParityInSuffix(s: string, k: nat, j: nat)
    requires k + j <= |s| && BackslashesBefore(s, k) % 2 == 0
    ensures BackslashesBefore(s[k..], j) % 2 == BackslashesBefore(s, k + j) % 2
  {
    if j > 0 {
      assert s[k..][j - 1] == s[k + j - 1];
      RunParityInSuffix(s, k, j - 1);
    }
  }

  /** The character an escape sequence `\c` stands for. */
  function EscapeValue(c: char): char {
    if c == 'n' then '\n'
    else if c == 'r' then '\r'
    else if c == 't' then '\t'
    else if c == 'b' then '\U{0008}'
    else if c == 'f' then '\U{000C}'
    else if c == 's' then ' '
    else c
  }

  /** The value a literal body denotes; a body without a backslash denotes itself. */
  function Unescape(s: string): (v: string)
    ensures |v| <= |s|
    ensures '\\' !in s ==> v == s
  {
    if |s| == 0 then ""
    else if s[0] == '\\' && |s| >= 2 then [EscapeValue(s[1])] + Unescape(s[2..])
    else [s[0]] + Unescape(s[1..])
  }

  /** One character as it must be written inside a literal. */
  function EscapeChar(c: char): (e: string)
    ensures 1 <= |e| <= 2
    ensures |e| == 1 <==> e == [c]
    ensures |e| == 2 <==> c == '"' || c == '\\' || c == '\n' || c == '\r'
    ensures |e| == 2 ==> e[0] == '\\' && EscapeValue(e[1]) == c
    ensures e[0] != '"'
  {
    if c == '"' then "\\\""
    else if c == '\\' then "\\\\"
    else if c == '\n' then "\\n"
    else if c == '\r' then "\\r"
    else [c]
  }

  /**
    `text` written as a literal body: quotes, backslashes and line breaks
    escaped, each with one backslash, so every character takes one or two.
   */
  function Escape(text: string): (e: string)
    ensures |text| <= |e| <= 2 * |text|
  {
    if |text| == 0 then "" else EscapeChar(text[0]) + Escape(text[1..])
  }

  /**
    An escaped body followed by anything runs over the whole escaped text:
    no quote inside it closes the literal early.
   */
  lemma {:induction false} EscapedBodyLength(text: string, rest: string)
    ensures BodyLength(Escape(text) + rest) == |Escape(text)| + BodyLength(rest)
  {
    if |text| > 0 {
      var e, tail := EscapeChar(text[0]), Escape(text[1..]);
      EscapedBodyLength(text[1..], rest);
      var s := Escape(text) + rest;
      assert s == e + (tail + rest);
      assert s[0] == e[0];
      if |e| == 2 {
        assert s[2..] == tail + rest;
      } else {
        assert s[1..] == tail + rest;
      }
    } else {
      assert Escape(text) + rest == rest;
    }
  }

  /** Text with no quote, backslash or line break is written as it is. */
  lemma {:induction false} PlainTextUnescaped(text: string)
    requires forall i :: 0 <= i < |text| ==> text[i] !in {'"', '\\', '\n', '\r'}
    ensures Escape(text) == text
  {
    if |text| > 0 {
      PlainTextUnescaped(text[1..]);
      assert text == [text[0]] + text[1..];
    }
  }

  /** Reading an escaped body back gives the text that was escaped. */
  lemma {:induction false} UnescapeEscape(text: string)
    ensures Unescape(Escape(text)) == text
  {
    if |text| > 0 {
      var e, tail := EscapeChar(text[0]), Escape(text[1..]);
      UnescapeEscape(text[1..]);
      var s := Escape(text);
      assert s == e + tail;
      if |e| == 2 {
        assert s[2..] == tail;
      } else {
        assert s[1..] == tail;
      }
      assert text == [text[0]] + text[1..];
    }
  }

  /**
    Escaped text placed between quotes makes a literal that closes at the
    intended quote and denotes exactly that text.
   */
  lemma EscapedLiteral(text: string, rest: string)
    ensures var s := Escape(text) + "\"" + rest;
      && BodyLength(s) == |Escape(text)|
      && Unescape(s[..BodyLength(s)]) == text
  {
    var s := Escape(text) + "\"" + rest;
    EscapedBodyLength(text, "\"" + rest);
    assert s == Escape(text) + ("\"" + rest);
    assert s[..|Escape(text)|] == Escape(text);
    UnescapeEscape(text);
  }

  /**
    The same literal with text of any kind before its opening quote: the
    body that starts after `before` is the escaped text.
   */
  lemma EscapedLiteralAfter(before: string, text: string, after: string)
    requires |after| > 0 && after[0] == '"'
    ensures var s := (before + Escape(text) + after)[|before|..];
      && BodyLength(s) == |Escape(text)|
      && Unescape(s[..|Escape(text)|]) == text
  {
    var s := (before + Escape(text) + after)[|before|..];
    assert s == Escape(text) + "\"" + after[1..];
    EscapedLiteral(text, after[1..]);
  }

  /**
    A literal body that starts with `{"`, as the JSON text of an object with
    a member does, ends after the `{`: the quote closes the literal.
   */
  lemma LiteralClosedByQuote(code: string, start: nat, text: string)
    requires start + |text| <= |code| && code[start..start + |text|] == text
    requires |text| >= 2 && text[0] == '{' && text[1] == '"'
    ensures start <= |code|
    ensures BodyLength(code[start..]) == 1 && Unescape(code[start..][..1]) == "{"
  {
    var body := code[start..];
    assert body[0] == text[0] && body[1] == text[1];
    assert body[1..][0] == '"';
    assert body[..1] == "{";
  }
}
