/** Translation of the vendor-neutral messages and tools into the vendor's
    chat-completion wire shapes (`openAIConvertMessages`,
    `openAIConvertTools`). */
module Translator {
  import opened Wrappers
  import opened GoText
  import opened Ai
  import Base64

  const FileScheme := "file://"
  const ImageMimePrefix := "image/"

  /** `OpenAIContentPart`: a typed part; `file` is the File pointer's FileID. */
  datatype Part = Part(kind: string, text: string, file: Option<string>)

  /** The `interface{}` content of a wire message: a string, a list of
      parts, or a resource body passed through untouched. */
  datatype Content = StringContent(text: string) | PartsContent(parts: seq<Part>) | BodyContent(body: Body)

  /** `OpenAIToolCall` as the request carries it. */
  datatype WireToolCall = WireToolCall(index: int, id: string, kind: string, name: string, arguments: string)

  /** `OpenAIMessage`. */
  datatype WireMessage = WireMessage(role: string, content: Content, toolCalls: seq<WireToolCall>, toolCallId: string)

  /** `OpenAITool` with its `OpenAIToolFunction`. */
  datatype WireTool = WireTool(kind: string, name: string, description: string, parameters: string)

  function WireCall(c: ToolCall): WireToolCall {
    WireToolCall(0, c.id, c.kind, c.name, c.args)
  }

  /** The tool calls of an assistant message, appended one by one. */
  function WireCalls(cs: seq<ToolCall>): (r: seq<WireToolCall>)
    ensures |r| == |cs|
    ensures forall k :: 0 <= k < |cs| ==> r[k] == WireToolCall(0, cs[k].id, cs[k].kind, cs[k].name, cs[k].args)
  {
    if cs == [] then [] else [WireCall(cs[0])] + WireCalls(cs[1..])
  }

  /** The text part that follows a file reference: the description, else
      "File: " and the name, else nothing. */
  function FileCaption(name: string, description: string): seq<Part> {
    if description != "" then [Part("text", description, None)]
    else if name != "" then [Part("text", "File: " + name, None)]
    else []
  }

  function DataUrl(mimeType: string, bytes: seq<Byte>): string {
    "data:" + mimeType + ";base64," + Base64.Encode(bytes)
  }

  /** The content of a resource message: a file reference for a `file://`
      URI, a base64 data URL for image bytes, the raw text otherwise. */
  function ResourceContent(uri: string, name: string, description: string, mimeType: string, body: Body): Content {
    if HasPrefix(uri, FileScheme) then
      PartsContent([Part("file", "", Some(TrimPrefix(uri, FileScheme)))] + FileCaption(name, description))
    else if mimeType != "" && HasPrefix(mimeType, ImageMimePrefix) then
      match body
      case BytesBody(b) => StringContent(DataUrl(mimeType, b))
      case _ => BodyContent(body)
    else
      match body
      case BytesBody(b) => StringContent(BytesToString(b))
      case StringBody(s) => StringContent(s)
      case _ => BodyContent(body)
  }

  /** The wire form of one message; total over the closed set of kinds. */
  function ConvertMessage(m: Message): (w: WireMessage)
    ensures w.role == m.role
    ensures !m.AIMessage? ==> w.toolCalls == []
    ensures !m.ToolMessage? ==> w.toolCallId == ""
  {
    match m
    case UserMessage(role, content) => WireMessage(role, StringContent(content), [], "")
    case AIMessage(role, content, _, calls, _) => WireMessage(role, StringContent(content), WireCalls(calls), "")
    case ToolMessage(role, content, id) => WireMessage(role, StringContent(content), [], id)
    case SystemMessage(role, content) => WireMessage(role, StringContent(content), [], "")
    case ResourceMessage(role, uri, name, description, mimeType, body) =>
      WireMessage(role, ResourceContent(uri, name, description, mimeType, body), [], "")
  }

  /** `openAIConvertMessages`: one wire message per input message, in order,
      each keeping its message's role. */
  function ConvertMessages(ms: seq<Message>): (ws: seq<WireMessage>)
    ensures |ws| == |ms|
    ensures forall k :: 0 <= k < |ms| ==> ws[k] == ConvertMessage(ms[k])
    ensures forall k :: 0 <= k < |ms| ==> ws[k].role == ms[k].role
  {
    if ms == [] then [] else [ConvertMessage(ms[0])] + ConvertMessages(ms[1..])
  }

  /** `openAIConvertTools`: one function declaration per tool, in order. */
  function ConvertTools(ts: seq<Tool>): (ws: seq<WireTool>)
    ensures |ws| == |ts|
    ensures forall k :: 0 <= k < |ts| ==>
      ws[k] == WireTool("function", ts[k].name, ts[k].description, ts[k].inputSchema)
  {
    if ts == [] then [] else [WireTool("function", ts[0].name, ts[0].description, ts[0].inputSchema)] + ConvertTools(ts[1..])
  }

  /** Text, assistant, tool-result and system messages carry their content
      as a plain string; an assistant's tool calls and a tool result's call
      id are carried over. */
  lemma PlainMessages(m: Message)
    requires !m.ResourceMessage?
    ensures ConvertMessage(m).content == StringContent(m.content)
    ensures m.AIMessage? ==> ConvertMessage(m).toolCalls == WireCalls(m.toolCalls)
    ensures m.ToolMessage? ==> ConvertMessage(m).toolCallId == m.toolCallId
  {
  }

  /** A `file://` resource becomes a file part whose id is the URI without
      the scheme, followed by one caption part when there is a description
      or a name. */
  lemma FileResource(uri: string, name: string, description: string, mimeType: string, body: Body)
    requires HasPrefix(uri, FileScheme)
    ensures var c := ResourceContent(uri, name, description, mimeType, body);
      && c.PartsContent? && 1 <= |c.parts| <= 2
      && c.parts[0].kind == "file" && c.parts[0].file.Some? && c.parts[0].text == ""
      && FileScheme + c.parts[0].file.value == uri
      && (|c.parts| == 2 <==> description != "" || name != "")
      && (|c.parts| == 2 ==>
            && c.parts[1].kind == "text" && c.parts[1].file.None?
            && c.parts[1].text == if description != "" then description else "File: " + name)
  {
  }

  /** Image bytes become a data URL whose payload decodes back to exactly
      those bytes. */
  lemma ImageResource(uri: string, name: string, description: string, mimeType: string, bytes: seq<Byte>)
    requires !HasPrefix(uri, FileScheme) && HasPrefix(mimeType, ImageMimePrefix)
    ensures var c := ResourceContent(uri, name, description, mimeType, BytesBody(bytes));
      && c.StringContent?
      && exists payload :: c.text == "data:" + mimeType + ";base64," + payload
                           && Base64.Decode(payload) == Some(bytes)
  {
    var payload := Base64.Encode(bytes);
    Base64.DecodeEncode(bytes);
    assert ResourceContent(uri, name, description, mimeType, BytesBody(bytes)).text == "data:" + mimeType + ";base64," + payload;
  }

  /** Other byte bodies pass through as text, byte for byte, never base64
      encoded; string bodies pass through as they are. */
  lemma TextResource(uri: string, name: string, description: string, mimeType: string, body: Body)
    requires !HasPrefix(uri, FileScheme) && !HasPrefix(mimeType, ImageMimePrefix)
    ensures var c := ResourceContent(uri, name, description, mimeType, body);
      && (body.BytesBody? ==> c.StringContent? && StringToBytes(c.text) == body.bytes)
      && (body.StringBody? ==> c == StringContent(body.text))
      && (!body.BytesBody? && !body.StringBody? ==> c == BodyContent(body))
  {
    if body.BytesBody? {
      BytesToStringRoundTrip(body.bytes);
    }
  }

  /** An image resource whose body is not bytes passes the body through. */
  lemma ImageResourceWithoutBytes(uri: string, name: string, description: string, mimeType: string, body: Body)
    requires !HasPrefix(uri, FileScheme) && HasPrefix(mimeType, ImageMimePrefix) && !body.BytesBody?
    ensures ResourceContent(uri, name, description, mimeType, body) == BodyContent(body)
  {
  }

  /** The three cases of sanity_test.go: a file reference captioned by its
      name, one captioned by its description, and a PNG data URL. */
  lemma SanityFileWithName()
    ensures ConvertMessages([ResourceMessage("user", "file://file-abc123", "document.pdf", "", "", NilBody)])
      == [WireMessage("user", PartsContent([Part("file", "", Some("file-abc123")), Part("text", "File: document.pdf", None)]), [], "")]
  {
    var m := ResourceMessage("user", "file://file-abc123", "document.pdf", "", "", NilBody);
    assert ConvertMessages([m]) == [ConvertMessage(m)];
    assert HasPrefix(m.uri, FileScheme);
    assert TrimPrefix(m.uri, FileScheme) == "file-abc123";
    assert |m.name| == 12 && "File: " + m.name == "File: document.pdf";
    assert FileCaption(m.name, m.description) == [Part("text", "File: document.pdf", None)];
    var parts := [Part("file", "", Some("file-abc123"))] + [Part("text", "File: document.pdf", None)];
    assert parts == [Part("file", "", Some("file-abc123")), Part("text", "File: document.pdf", None)];
    assert ResourceContent(m.uri, m.name, m.description, m.mimeType, m.body) == PartsContent(parts);
  }

  lemma SanityFileWithDescription()
    ensures ConvertMessages([ResourceMessage("user", "file://file-def456", "image.jpg", "A beautiful landscape image", "", NilBody)])
      == [WireMessage("user", PartsContent([Part("file", "", Some("file-def456")), Part("text", "A beautiful landscape image", None)]), [], "")]
  {
    var m := ResourceMessage("user", "file://file-def456", "image.jpg", "A beautiful landscape image", "", NilBody);
    assert ConvertMessages([m]) == [ConvertMessage(m)];
    assert HasPrefix(m.uri, FileScheme);
    assert TrimPrefix(m.uri, FileScheme) == "file-def456";
    assert |m.description| == 27;
    assert FileCaption(m.name, m.description) == [Part("text", "A beautiful landscape image", None)];
    var parts := [Part("file", "", Some("file-def456"))] + [Part("text", "A beautiful landscape image", None)];
    assert parts == [Part("file", "", Some("file-def456")), Part("text", "A beautiful landscape image", None)];
    assert ResourceContent(m.uri, m.name, m.description, m.mimeType, m.body) == PartsContent(parts);
  }

  lemma SanityImage()
    ensures ConvertMessages([ResourceMessage("user", "", "test.png", "", "image/png", BytesBody(StringToBytes("fake-image-data")))])
      == [WireMessage("user", StringContent("data:image/png;base64,ZmFrZS1pbWFnZS1kYXRh"), [], "")]
  {
    OneImageMessage("user", "test.png", "image/png", StringToBytes("fake-image-data"));
    FakeImageDataUrl();
  }

  lemma OneImageMessage(role: string, name: string, mimeType: string, bytes: seq<Byte>)
    requires HasPrefix(mimeType, ImageMimePrefix)
    ensures ConvertMessages([ResourceMessage(role, "", name, "", mimeType, BytesBody(bytes))])
      == [WireMessage(role, StringContent(DataUrl(mimeType, bytes)), [], "")]
  {
    var m := ResourceMessage(role, "", name, "", mimeType, BytesBody(bytes));
    assert !HasPrefix(m.uri, FileScheme);
    assert ConvertMessages([m]) == [ConvertMessage(m)];
  }

  lemma FakeImageDataUrl()
    ensures DataUrl("image/png", StringToBytes("fake-image-data")) == "data:image/png;base64,ZmFrZS1pbWFnZS1kYXRh"
  {
    var b := StringToBytes("fake-image-data");
    Base64.FakeImageDataVector();
    PngHead();
    FakeImageDataUrlText();
    assert DataUrl("image/png", b) == "data:image/png;base64," + "ZmFrZS1pbWFnZS1kYXRh";
  }

  lemma PngHead()
    ensures "data:" + "image/png" + ";base64," == "data:image/png;base64,"
  {
  }

  lemma FakeImageDataUrlText()
    ensures "data:image/png;base64," + "ZmFrZS1pbWFnZS1kYXRh" == "data:image/png;base64,ZmFrZS1pbWFnZS1kYXRh"
  {
  }
}
