/**
  The eight snippet templates of lib/code-generators.ts. Each generator
  returns one template literal with two holes: the webhook URL and
  `JSON.stringify(payload, …)`. A frame holds the literal text around the
  holes, split into lines (the text is the lines joined with newlines, see
  `Strings.Unlines`), and the layout the payload is serialised with.
 */
module Templates {
  import opened Strings
  import opened JsValues

  /** The serialisation requested: `JSON.stringify(v)` or `JSON.stringify(v, null, width)`. */
  datatype Layout = Compact | Indent(width: nat)

  /** `head`, then the URL, then `mid`, then the serialised payload, then `tail`. */
  datatype Frame = Frame(head: seq<string>, mid: seq<string>, tail: seq<string>, layout: Layout)

  /** generateJavaScript (lib/code-generators.ts:33-60). */
  const JavaScriptFrame: Frame := Frame(
    [
      "// Send webhook using fetch API",
      "const webhookUrl = '"
    ],
    [
      "';",
      "const payload = "
    ],
    [
      ";",
      "",
      "async function sendWebhook() {",
      "  try {",
      "    const response = await fetch(webhookUrl, {",
      "      method: 'POST',",
      "      headers: {",
      "        'Content-Type': '" + JsonMediaType + "',",
      "      },",
      "      body: JSON.stringify(payload),",
      "    });",
      "",
      "    if (response.ok) {",
      "      console.log('Webhook sent successfully');",
      "      const result = await response.text();",
      "      console.log('Response:', result);",
      "    } else {",
      "      console.error('Failed to send webhook:', response.status);",
      "    }",
      "  } catch (error) {",
      "    console.error('Error sending webhook:', error);",
      "  }",
      "}",
      "",
      "sendWebhook();"
    ],
    Indent(2))

  /** generatePython (lib/code-generators.ts:63-90). */
  const PythonFrame: Frame := Frame(
    [
      "# Send webhook using requests library",
      "import requests",
      "import json",
      "",
      "webhook_url = '"
    ],
    [
      "'",
      "payload = "
    ],
    [
      "",
      "",
      "def send_webhook():",
      "    try:",
      "        response = requests.post(",
      "            webhook_url,",
      "            json=payload,",
      "            headers={'Content-Type': '" + JsonMediaType + "'}",
      "        )",
      "        ",
      "        if response.status_code == 200:",
      "            print('Webhook sent successfully')",
      "            print(f'Response: {response.text}')",
      "        else:",
      "            print(f'Failed to send webhook: {response.status_code}')",
      "            print(f'Error: {response.text}')",
      "            ",
      "    except requests.exceptions.RequestException as e:",
      "        print(f'Error sending webhook: {e}')",
      "",
      "if __name__ == \"__main__\":",
      "    send_webhook()"
    ],
    Indent(2))

  /** generateCurl (lib/code-generators.ts:93-101). */
  const CurlFrame: Frame := Frame(
    [
      "#!/bin/bash",
      "# Send webhook using cURL",
      "",
      "curl -X POST \""
    ],
    [
      "\" \\",
      "  -H \"Content-Type: " + JsonMediaType + "\" \\",
      "  -d '"
    ],
    [
      "' \\",
      "  -w \"\\nHTTP Status: %{http_code}\\n\" \\",
      "  -s"
    ],
    Compact)

  /** generatePHP (lib/code-generators.ts:104-144). */
  const PhpFrame: Frame := Frame(
    [
      "<?php",
      "// Send webhook using cURL in PHP",
      "",
      "$webhookUrl = '"
    ],
    [
      "';",
      "$payload = "
    ],
    [
      ";",
      "",
      "function sendWebhook($url, $data) {",
      "    $ch = curl_init();",
      "    ",
      "    curl_setopt($ch, CURLOPT_URL, $url);",
      "    curl_setopt($ch, CURLOPT_POST, true);",
      "    curl_setopt($ch, CURLOPT_POSTFIELDS, json_encode($data));",
      "    curl_setopt($ch, CURLOPT_HTTPHEADER, [",
      "        'Content-Type: " + JsonMediaType + "',",
      "        'Content-Length: ' . strlen(json_encode($data))",
      "    ]);",
      "    curl_setopt($ch, CURLOPT_RETURNTRANSFER, true);",
      "    ",
      "    $response = curl_exec($ch);",
      "    $httpCode = curl_getinfo($ch, CURLINFO_HTTP_CODE);",
      "    ",
      "    if (curl_errno($ch)) {",
      "        echo 'Error: ' . curl_error($ch);",
      "        return false;",
      "    }",
      "    ",
      "    curl_close($ch);",
      "    ",
      "    if ($httpCode === 200) {",
      "        echo \"Webhook sent successfully\\n\";",
      "        echo \"Response: \" . $response . \"\\n\";",
      "        return true;",
      "    } else {",
      "        echo \"Failed to send webhook. HTTP Code: \" . $httpCode . \"\\n\";",
      "        return false;",
      "    }",
      "}",
      "",
      "sendWebhook($webhookUrl, $payload);",
      "?>"
    ],
    Indent(2))

  /** generateGo (lib/code-generators.ts:147-193). */
  const GoFrame: Frame := Frame(
    [
      "package main",
      "",
      "import (",
      "    \"bytes\"",
      "    \"encoding/json\"",
      "    \"fmt\"",
      "    \"net/http\"",
      "    \"io/ioutil\"",
      ")",
      "",
      "func main() {",
      "    webhookURL := \""
    ],
    [
      "\"",
      "    payload := "
    ],
    [
      "",
      "    ",
      "    if err := sendWebhook(webhookURL, payload); err != nil {",
      "        fmt.Printf(\"Error: %v\\n\", err)",
      "    }",
      "}",
      "",
      "func sendWebhook(url string, payload interface{}) error {",
      "    jsonData, err := json.Marshal(payload)",
      "    if err != nil {",
      "        return fmt.Errorf(\"failed to marshal payload: %w\", err)",
      "    }",
      "    ",
      "    resp, err := http.Post(url, \"" + JsonMediaType + "\", bytes.NewBuffer(jsonData))",
      "    if err != nil {",
      "        return fmt.Errorf(\"failed to send webhook: %w\", err)",
      "    }",
      "    defer resp.Body.Close()",
      "    ",
      "    body, err := ioutil.ReadAll(resp.Body)",
      "    if err != nil {",
      "        return fmt.Errorf(\"failed to read response: %w\", err)",
      "    }",
      "    ",
      "    if resp.StatusCode == http.StatusOK {",
      "        fmt.Println(\"Webhook sent successfully\")",
      "        fmt.Printf(\"Response: %s\\n\", string(body))",
      "    } else {",
      "        fmt.Printf(\"Failed to send webhook. Status: %d\\n\", resp.StatusCode)",
      "        fmt.Printf(\"Response: %s\\n\", string(body))",
      "    }",
      "    ",
      "    return nil",
      "}"
    ],
    Indent(4))

  /** The long lines of the Rust template, each named so it can be inspected on its own. */
  const RustHeadLine6: string := "use reqwest" + "::Client;"
  const RustHeadLine7: string := "use serde_json" + "::json;"
  const RustHeadLine10: string := "async fn main() " + "-> Result<(), " + "Box<dyn std" + "::error" + "::Error>> {"
  const RustHeadLine11: string := "    let " + "webhook_url = \""
  const RustMidLine1: string := "    let payload " + "= json!("
  const RustTailLine2: string := "    " + "send_webhook(webhook_url, " + "payload).await?;"
  const RustTailLine6: string := "async fn " + "send_webhook(url: " + "&str, payload: " + "serde_json" + "::Value) -> " + "Result<(), " + "Box<dyn std" + "::error" + "::Error>> {"
  const RustTailLine7: string := "    let client " + "= Client::new();"
  const RustTailLine9: string := "    let " + "response = " + "client"
  const RustTailLine10: string := "        " + ".post(url)"
  const RustTailLine11: string := "        " + ".json(&payload)"
  const RustTailLine15: string := "    if response" + ".status()" + ".is_success() {"
  const RustTailLine16: string := "        " + "println!(\"Webhook " + "sent " + "successfully\");"
  const RustTailLine17: string := "        let " + "response_text = " + "response.text()" + ".await?;"
  const RustTailLine18: string := "        " + "println!(\"Response: " + "{}\", " + "response_text);"
  const RustTailLine20: string := "        " + "println!(\"Failed " + "to send " + "webhook. " + "Status: {}\", " + "response" + ".status());"
  const RustTailLine21: string := "        let " + "error_text = " + "response.text()" + ".await?;"
  const RustTailLine22: string := "        " + "println!(\"Error: " + "{}\", " + "error_text);"

  /**
    generateRust (lib/code-generators.ts:196-235). Long lines are written
    as concatenations of literals of about sixteen characters, cut only
    between tokens, each of which the verifier can inspect character by
    character.
   */
  const RustFrame: Frame := Frame(
    [
      "// Add to Cargo" + ".toml:",
      "// " + "[dependencies]",
      "// reqwest = { " + "version = " + "\"0.11\", " + "features = " + "[\"json\"] }",
      "// serde_json = " + "\"1.0\"",
      "// tokio = { " + "version = " + "\"1.0\", features " + "= [\"full\"] }",
      "",
      RustHeadLine6,
      RustHeadLine7,
      "",
      "#[tokio::main]",
      RustHeadLine10,
      RustHeadLine11
    ],
    [
      "\";",
      RustMidLine1
    ],
    [
      ");",
      "    ",
      RustTailLine2,
      "    Ok(())",
      "}",
      "",
      RustTailLine6,
      RustTailLine7,
      "    ",
      RustTailLine9,
      RustTailLine10,
      RustTailLine11,
      "        .send()",
      "        .await?;",
      "    ",
      RustTailLine15,
      RustTailLine16,
      RustTailLine17,
      RustTailLine18,
      "    } else {",
      RustTailLine20,
      RustTailLine21,
      RustTailLine22,
      "    }",
      "    ",
      "    Ok(())",
      "}"
    ],
    Indent(4))

  /** generateRuby (lib/code-generators.ts:238-272). */
  const RubyFrame: Frame := Frame(
    [
      "# Send webhook using Net::HTTP",
      "require 'net/http'",
      "require 'json'",
      "require 'uri'",
      "",
      "webhook_url = '"
    ],
    [
      "'",
      "payload = "
    ],
    [
      "",
      "",
      "def send_webhook(url, data)",
      "  uri = URI.parse(url)",
      "  ",
      "  http = Net::HTTP.new(uri.host, uri.port)",
      "  http.use_ssl = true if uri.scheme == 'https'",
      "  ",
      "  request = Net::HTTP::Post.new(uri)",
      "  request['Content-Type'] = '" + JsonMediaType + "'",
      "  request.body = data.to_json",
      "  ",
      "  begin",
      "    response = http.request(request)",
      "    ",
      "    if response.code == '200'",
      "      puts 'Webhook sent successfully'",
      "      puts \"Response: #{response.body}\"",
      "    else",
      "      puts \"Failed to send webhook. Status: #{response.code}\"",
      "      puts \"Error: #{response.body}\"",
      "    end",
      "  rescue => e",
      "    puts \"Error sending webhook: #{e.message}\"",
      "  end",
      "end",
      "",
      "send_webhook(webhook_url, payload)"
    ],
    Indent(2))

  /** generateJava (lib/code-generators.ts:275-318). */
  const JavaFrame: Frame := Frame(
    [
      "// Send webhook using Java HttpClient (Java 11+)",
      "import java.net.URI;",
      "import java.net.http.HttpClient;",
      "import java.net.http.HttpRequest;",
      "import java.net.http.HttpResponse;",
      "import java.time.Duration;",
      "",
      "public class WebhookSender {",
      "    private static final String WEBHOOK_URL = \""
    ],
    [
      "\";",
      "    private static final String PAYLOAD = \""
    ],
    [
      "\";",
      "    ",
      "    public static void main(String[] args) {",
      "        try {",
      "            sendWebhook();",
      "        } catch (Exception e) {",
      "            System.err.println(\"Error sending webhook: \" + e.getMessage());",
      "        }",
      "    }",
      "    ",
      "    private static void sendWebhook() throws Exception {",
      "        HttpClient client = HttpClient.newBuilder()",
      "            .connectTimeout(Duration.ofSeconds(10))",
      "            .build();",
      "        ",
      "        HttpRequest request = HttpRequest.newBuilder()",
      "            .uri(URI.create(WEBHOOK_URL))",
      "            .header(\"Content-Type\", \"" + JsonMediaType + "\")",
      "            .POST(HttpRequest.BodyPublishers.ofString(PAYLOAD))",
      "            .timeout(Duration.ofSeconds(30))",
      "            .build();",
      "        ",
      "        HttpResponse<String> response = client.send(request, ",
      "            HttpResponse.BodyHandlers.ofString());",
      "        ",
      "        if (response.statusCode() == 200) {",
      "            System.out.println(\"Webhook sent successfully\");",
      "            System.out.println(\"Response: \" + response.body());",
      "        } else {",
      "            System.out.println(\"Failed to send webhook. Status: \" + response.statusCode());",
      "            System.out.println(\"Error: \" + response.body());",
      "        }",
      "    }",
      "}"
    ],
    Compact)

  /** A line that spells the media type out contains it. */
  lemma MediaTypeInLine(before: string, after: string)
    ensures Contains(before + JsonMediaType + after, JsonMediaType)
  {
    ContainsSelf(JsonMediaType);
    ContainsPrependLeft(before, JsonMediaType, JsonMediaType);
    ContainsAppendRight(before + JsonMediaType, after, JsonMediaType);
  }

  /** The media type contains a `/`, so a line without one cannot contain it. */
  lemma NoSlashLacksJson(line: string)
    requires '/' !in line
    ensures !Contains(line, JsonMediaType)
  {
    forall i: nat | i <= |line|
      ensures !OccursAt(line, JsonMediaType, i)
    {
      if i + 16 <= |line| {
        assert line[i..i + 16][11] == line[i + 11];
      }
    }
  }

  /**
    The media type needs a `/` at offset 11 of an occurrence, so a line with
    no `/` from index 11 on cannot contain it.
   */
  lemma NoSlashPastElevenLacksJson(line: string)
    requires forall i :: 11 <= i < |line| ==> line[i] != '/'
    ensures !Contains(line, JsonMediaType)
  {
    forall i: nat | i <= |line|
      ensures !OccursAt(line, JsonMediaType, i)
    {
      if i + 16 <= |line| {
        assert line[i..i + 16][11] == line[i + 11];
      }
    }
  }

  lemma JavaScriptFrameNamesJson()
    ensures Contains(Unlines(JavaScriptFrame.tail), JsonMediaType)
  {
    MediaTypeInLine("        'Content-Type': '", "',");
    LineContentInUnlines(JavaScriptFrame.tail, 7, JsonMediaType);
  }

  lemma PythonFrameNamesJson()
    ensures Contains(Unlines(PythonFrame.tail), JsonMediaType)
  {
    MediaTypeInLine("            headers={'Content-Type': '", "'}");
    LineContentInUnlines(PythonFrame.tail, 7, JsonMediaType);
  }

  lemma CurlFrameNamesJson()
    ensures Contains(Unlines(CurlFrame.mid), JsonMediaType)
  {
    MediaTypeInLine("  -H \"Content-Type: ", "\" \\");
    LineContentInUnlines(CurlFrame.mid, 1, JsonMediaType);
  }

  lemma PhpFrameNamesJson()
    ensures Contains(Unlines(PhpFrame.tail), JsonMediaType)
  {
    MediaTypeInLine("        'Content-Type: ", "',");
    LineContentInUnlines(PhpFrame.tail, 9, JsonMediaType);
  }

  lemma GoFrameNamesJson()
    ensures Contains(Unlines(GoFrame.tail), JsonMediaType)
  {
    MediaTypeInLine("    resp, err := http.Post(url, \"", "\", bytes.NewBuffer(jsonData))");
    LineContentInUnlines(GoFrame.tail, 13, JsonMediaType);
  }

  lemma RustHeadLines0To3OmitJson()
    ensures forall k :: 0 <= k < 4 ==> !Contains(RustFrame.head[k], JsonMediaType)
  {
    forall k | 0 <= k < 4
      ensures !Contains(RustFrame.head[k], JsonMediaType)
    {
      if k == 0 {
        NoSlashPastElevenLacksJson(RustFrame.head[0]);
      } else if k == 1 {
        NoSlashPastElevenLacksJson(RustFrame.head[1]);
      } else if k == 2 {
        NoSlashPastElevenLacksJson(RustFrame.head[2]);
      } else {
        NoSlashPastElevenLacksJson(RustFrame.head[3]);
      }
    }
  }

  lemma RustHeadLine6OmitsJson()
    ensures !Contains(RustHeadLine6, JsonMediaType)
  {
    assert '/' !in "use reqwest";
    assert '/' !in "::Client;";
    NoSlashLacksJson(RustHeadLine6);
  }

  lemma RustHeadLine7OmitsJson()
    ensures !Contains(RustHeadLine7, JsonMediaType)
  {
    assert '/' !in "use serde_json";
    assert '/' !in "::json;";
    NoSlashLacksJson(RustHeadLine7);
  }

  lemma RustHeadLines4To9OmitJson()
    ensures forall k :: 4 <= k < 10 ==> !Contains(RustFrame.head[k], JsonMediaType)
  {
    forall k | 4 <= k < 10
      ensures !Contains(RustFrame.head[k], JsonMediaType)
    {
      if k == 4 {
        NoSlashPastElevenLacksJson(RustFrame.head[4]);
      } else if k == 5 {
        NoSlashLacksJson(RustFrame.head[5]);
      } else if k == 6 {
        RustHeadLine6OmitsJson();
      } else if k == 7 {
        RustHeadLine7OmitsJson();
      } else if k == 8 {
        NoSlashLacksJson(RustFrame.head[8]);
      } else {
        NoSlashLacksJson(RustFrame.head[9]);
      }
    }
  }

  lemma RustHeadLine10OmitsJson()
    ensures !Contains(RustHeadLine10, JsonMediaType)
  {
    assert '/' !in "async fn main() ";
    assert '/' !in "-> Result<(), ";
    assert '/' !in "Box<dyn std";
    assert '/' !in "::error";
    assert '/' !in "::Error>> {";
    NoSlashLacksJson(RustHeadLine10);
  }

  lemma RustHeadLine11OmitsJson()
    ensures !Contains(RustHeadLine11, JsonMediaType)
  {
    assert '/' !in "    let ";
    assert '/' !in "webhook_url = \"";
    NoSlashLacksJson(RustHeadLine11);
  }

  lemma RustHeadLines10To11OmitJson()
    ensures forall k :: 10 <= k < 12 ==> !Contains(RustFrame.head[k], JsonMediaType)
  {
    forall k | 10 <= k < 12
      ensures !Contains(RustFrame.head[k], JsonMediaType)
    {
      if k == 10 {
        RustHeadLine10OmitsJson();
      } else {
        RustHeadLine11OmitsJson();
      }
    }
  }

  lemma RustMidLine1OmitsJson()
    ensures !Contains(RustMidLine1, JsonMediaType)
  {
    assert '/' !in "    let payload ";
    assert '/' !in "= json!(";
    NoSlashLacksJson(RustMidLine1);
  }

  lemma RustMidLines0To1OmitJson()
    ensures forall k :: 0 <= k < 2 ==> !Contains(RustFrame.mid[k], JsonMediaType)
  {
    forall k | 0 <= k < 2
      ensures !Contains(RustFrame.mid[k], JsonMediaType)
    {
      if k == 0 {
        NoSlashLacksJson(RustFrame.mid[0]);
      } else {
        RustMidLine1OmitsJson();
      }
    }
  }

  lemma RustTailLine2OmitsJson()
    ensures !Contains(RustTailLine2, JsonMediaType)
  {
    assert '/' !in "    ";
    assert '/' !in "send_webhook(webhook_url, ";
    assert '/' !in "payload).await?;";
    NoSlashLacksJson(RustTailLine2);
  }

  lemma RustTailLines0To5OmitJson()
    ensures forall k :: 0 <= k < 6 ==> !Contains(RustFrame.tail[k], JsonMediaType)
  {
    forall k | 0 <= k < 6
      ensures !Contains(RustFrame.tail[k], JsonMediaType)
    {
      if k == 0 {
        NoSlashLacksJson(RustFrame.tail[0]);
      } else if k == 1 {
        NoSlashLacksJson(RustFrame.tail[1]);
      } else if k == 2 {
        RustTailLine2OmitsJson();
      } else if k == 3 {
        NoSlashLacksJson(RustFrame.tail[3]);
      } else if k == 4 {
        NoSlashLacksJson(RustFrame.tail[4]);
      } else {
        NoSlashLacksJson(RustFrame.tail[5]);
      }
    }
  }

  lemma RustTailLine6OmitsJson()
    ensures !Contains(RustTailLine6, JsonMediaType)
  {
    assert '/' !in "async fn ";
    assert '/' !in "send_webhook(url: ";
    assert '/' !in "&str, payload: ";
    assert '/' !in "serde_json";
    assert '/' !in "::Value) -> ";
    assert '/' !in "Result<(), ";
    assert '/' !in "Box<dyn std";
    assert '/' !in "::error";
    assert '/' !in "::Error>> {";
    NoSlashLacksJson(RustTailLine6);
  }

  lemma RustTailLine7OmitsJson()
    ensures !Contains(RustTailLine7, JsonMediaType)
  {
    assert '/' !in "    let client ";
    assert '/' !in "= Client::new();";
    NoSlashLacksJson(RustTailLine7);
  }

  lemma RustTailLine9OmitsJson()
    ensures !Contains(RustTailLine9, JsonMediaType)
  {
    assert '/' !in "    let ";
    assert '/' !in "response = ";
    assert '/' !in "client";
    NoSlashLacksJson(RustTailLine9);
  }

  lemma RustTailLine10OmitsJson()
    ensures !Contains(RustTailLine10, JsonMediaType)
  {
    assert '/' !in "        ";
    assert '/' !in ".post(url)";
    NoSlashLacksJson(RustTailLine10);
  }

  lemma RustTailLine11OmitsJson()
    ensures !Contains(RustTailLine11, JsonMediaType)
  {
    assert '/' !in "        ";
    assert '/' !in ".json(&payload)";
    NoSlashLacksJson(RustTailLine11);
  }

  lemma RustTailLines7To12OmitJson()
    ensures forall k :: 7 <= k < 13 ==> !Contains(RustFrame.tail[k], JsonMediaType)
  {
    forall k | 7 <= k < 13
      ensures !Contains(RustFrame.tail[k], JsonMediaType)
    {
      if k == 7 {
        RustTailLine7OmitsJson();
      } else if k == 8 {
        NoSlashLacksJson(RustFrame.tail[8]);
      } else if k == 9 {
        RustTailLine9OmitsJson();
      } else if k == 10 {
        RustTailLine10OmitsJson();
      } else if k == 11 {
        RustTailLine11OmitsJson();
      } else {
        NoSlashLacksJson(RustFrame.tail[12]);
      }
    }
  }

  lemma RustTailLine15OmitsJson()
    ensures !Contains(RustTailLine15, JsonMediaType)
  {
    assert '/' !in "    if response";
    assert '/' !in ".status()";
    assert '/' !in ".is_success() {";
    NoSlashLacksJson(RustTailLine15);
  }

  lemma RustTailLine16OmitsJson()
    ensures !Contains(RustTailLine16, JsonMediaType)
  {
    assert '/' !in "        ";
    assert '/' !in "println!(\"Webhook ";
    assert '/' !in "sent ";
    assert '/' !in "successfully\");";
    NoSlashLacksJson(RustTailLine16);
  }

  lemma RustTailLines13To16OmitJson()
    ensures forall k :: 13 <= k < 17 ==> !Contains(RustFrame.tail[k], JsonMediaType)
  {
    forall k | 13 <= k < 17
      ensures !Contains(RustFrame.tail[k], JsonMediaType)
    {
      if k == 13 {
        NoSlashLacksJson(RustFrame.tail[13]);
      } else if k == 14 {
        NoSlashLacksJson(RustFrame.tail[14]);
      } else if k == 15 {
        RustTailLine15OmitsJson();
      } else {
        RustTailLine16OmitsJson();
      }
    }
  }

  lemma RustTailLine17OmitsJson()
    ensures !Contains(RustTailLine17, JsonMediaType)
  {
    assert '/' !in "        let ";
    assert '/' !in "response_text = ";
    assert '/' !in "response.text()";
    assert '/' !in ".await?;";
    NoSlashLacksJson(RustTailLine17);
  }

  lemma RustTailLine18OmitsJson()
    ensures !Contains(RustTailLine18, JsonMediaType)
  {
    assert '/' !in "        ";
    assert '/' !in "println!(\"Response: ";
    assert '/' !in "{}\", ";
    assert '/' !in "response_text);";
    NoSlashLacksJson(RustTailLine18);
  }

  lemma RustTailLines17To19OmitJson()
    ensures forall k :: 17 <= k < 20 ==> !Contains(RustFrame.tail[k], JsonMediaType)
  {
    forall k | 17 <= k < 20
      ensures !Contains(RustFrame.tail[k], JsonMediaType)
    {
      if k == 17 {
        RustTailLine17OmitsJson();
      } else if k == 18 {
        RustTailLine18OmitsJson();
      } else {
        NoSlashLacksJson(RustFrame.tail[19]);
      }
    }
  }

  lemma RustTailLine20OmitsJson()
    ensures !Contains(RustTailLine20, JsonMediaType)
  {
    assert '/' !in "        ";
    assert '/' !in "println!(\"Failed ";
    assert '/' !in "to send ";
    assert '/' !in "webhook. ";
    assert '/' !in "Status: {}\", ";
    assert '/' !in "response";
    assert '/' !in ".status());";
    NoSlashLacksJson(RustTailLine20);
  }

  lemma RustTailLine21OmitsJson()
    ensures !Contains(RustTailLine21, JsonMediaType)
  {
    assert '/' !in "        let ";
    assert '/' !in "error_text = ";
    assert '/' !in "response.text()";
    assert '/' !in ".await?;";
    NoSlashLacksJson(RustTailLine21);
  }

  lemma RustTailLine22OmitsJson()
    ensures !Contains(RustTailLine22, JsonMediaType)
  {
    assert '/' !in "        ";
    assert '/' !in "println!(\"Error: ";
    assert '/' !in "{}\", ";
    assert '/' !in "error_text);";
    NoSlashLacksJson(RustTailLine22);
  }

  lemma RustTailLines21To26OmitJson()
    ensures forall k :: 21 <= k < 27 ==> !Contains(RustFrame.tail[k], JsonMediaType)
  {
    forall k | 21 <= k < 27
      ensures !Contains(RustFrame.tail[k], JsonMediaType)
    {
      if k == 21 {
        RustTailLine21OmitsJson();
      } else if k == 22 {
        RustTailLine22OmitsJson();
      } else if k == 23 {
        NoSlashLacksJson(RustFrame.tail[23]);
      } else if k == 24 {
        NoSlashLacksJson(RustFrame.tail[24]);
      } else if k == 25 {
        NoSlashLacksJson(RustFrame.tail[25]);
      } else {
        NoSlashLacksJson(RustFrame.tail[26]);
      }
    }
  }

  lemma RustHeadOmitsJson()
    ensures !Contains(Unlines(RustFrame.head), JsonMediaType)
  {
    RustHeadLines0To3OmitJson();
    RustHeadLines4To9OmitJson();
    RustHeadLines10To11OmitJson();
    AbsentFromUnlines(RustFrame.head, JsonMediaType);
  }

  lemma RustMidOmitsJson()
    ensures !Contains(Unlines(RustFrame.mid), JsonMediaType)
  {
    RustMidLines0To1OmitJson();
    AbsentFromUnlines(RustFrame.mid, JsonMediaType);
  }

  lemma RustTailOmitsJson()
    ensures !Contains(Unlines(RustFrame.tail), JsonMediaType)
  {
    RustTailLines0To5OmitJson();
    RustTailLine6OmitsJson();
    RustTailLines7To12OmitJson();
    RustTailLines13To16OmitJson();
    RustTailLines17To19OmitJson();
    RustTailLine20OmitsJson();
    RustTailLines21To26OmitJson();
    AbsentFromUnlines(RustFrame.tail, JsonMediaType);
  }

  /**
    The Rust template sends JSON through reqwest's `.json(&payload)` and
    never spells the media type out: none of its literal text contains it.
   */
  lemma RustFrameOmitsJson()
    ensures !Contains(Unlines(RustFrame.head), JsonMediaType)
    ensures !Contains(Unlines(RustFrame.mid), JsonMediaType)
    ensures !Contains(Unlines(RustFrame.tail), JsonMediaType)
  {
    RustHeadOmitsJson();
    RustMidOmitsJson();
    RustTailOmitsJson();
  }

  lemma RubyFrameNamesJson()
    ensures Contains(Unlines(RubyFrame.tail), JsonMediaType)
  {
    MediaTypeInLine("  request['Content-Type'] = '", "'");
    LineContentInUnlines(RubyFrame.tail, 9, JsonMediaType);
  }

  lemma JavaFrameNamesJson()
    ensures Contains(Unlines(JavaFrame.tail), JsonMediaType)
  {
    MediaTypeInLine("            .header(\"Content-Type\", \"", "\")");
    LineContentInUnlines(JavaFrame.tail, 17, JsonMediaType);
  }

}
