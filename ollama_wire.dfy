/**
 The pure side of the Ollama provider adapter: which of the two wire formats
 a base URL selects, the endpoint built from it, the native request body, the
 native response extraction, the bearer credential header value and the
 redacted preview of a credential.

 Every function here takes the configuration value it reads (the base URL,
 the model) as a parameter, so each call classifies the URL afresh.
 */
module OllamaWire {
  import opened GoStrings

  const DefaultOllamaBaseURL := "https://api.ollama.com/v1"
  const DefaultOllamaModel := "glm-4.7:cloud"

  /** The host name whose suffix selects the native format. */
  const NativeHost := "ollama.com"
  const NativeChatPath := "/api/chat"
  const CompatibleChatPath := "/chat/completions"

  const AuthorizationHeader := "Authorization"
  const BearerPrefix := "Bearer "

  datatype Option<T> = None | Some(value: T)

  /** Bytes as Go's `[]byte` holds them. */
  newtype byte = b: int | 0 <= b < 256

  // ---------------------------------------------------------------------
  // Wire-format classification
  // ---------------------------------------------------------------------

  /**
   The base URL selects Ollama's native format when it ends with `ollama.com`,
   with or without one trailing slash. Any other URL (the empty one included)
   selects the OpenAI-compatible format. Nothing is case-folded.
   */
  predicate IsNativeFormat(baseURL: string) {
    HasSuffix(baseURL, NativeHost) || HasSuffix(baseURL, NativeHost + "/")
  }

  /**
   The test as the request builder and the response parser each write it out:
   two exact host comparisons followed by the two suffix tests.
   */
  predicate InlineNativeTest(baseURL: string) {
    baseURL == "https://ollama.com" ||
    baseURL == "http://ollama.com" ||
    HasSuffix(baseURL, "ollama.com") ||
    HasSuffix(baseURL, "ollama.com/")
  }

  /** The exact comparisons of the inline test are subsumed by its suffix tests. */
  lemma InlineNativeTestAgrees(baseURL: string)
    ensures InlineNativeTest(baseURL) <==> IsNativeFormat(baseURL)
  {
  }

  /**
   An independent reading of the classification: strip at most one trailing
   slash, then the URL must end with `ollama.com`.
   */
  lemma NativeFormatAfterTrim(baseURL: string)
    ensures IsNativeFormat(baseURL) <==> HasSuffix(TrimSuffix(baseURL, "/"), NativeHost)
  {
    var t := TrimSuffix(baseURL, "/");
    if HasSuffix(baseURL, "/") {
      assert baseURL == t + "/";
      HasSuffixSnoc(t, NativeHost, '/');
      assert NativeHost + "/" == NativeHost + ['/'];
      LastOfSuffix(baseURL, "/");
      LastOfSuffix(baseURL, NativeHost);
    }
  }

  /** How the classification treats some URLs: by suffix only, as written. */
  lemma ClassificationExamples()
    ensures IsNativeFormat("https://ollama.com")
    ensures IsNativeFormat("http://ollama.com")
    ensures IsNativeFormat("https://ollama.com/")
    ensures IsNativeFormat("https://api.ollama.com")
    ensures IsNativeFormat("https://notollama.com")
    ensures !IsNativeFormat(DefaultOllamaBaseURL)
    ensures !IsNativeFormat("")
    ensures !IsNativeFormat("https://notollama.com/foo")
    ensures !IsNativeFormat("https://api.example.com")
    ensures !IsNativeFormat("https://api.example.com/")
    ensures !IsNativeFormat("https://OLLAMA.COM")
    ensures !IsNativeFormat("https://ollama.com//")
  {
  }

  // ---------------------------------------------------------------------
  // Endpoint
  // ---------------------------------------------------------------------

  /**
   `buildUrl`: the native format drops at most one trailing slash and appends
   `/api/chat`; the compatible format appends `/chat/completions` verbatim.
   */
  function BuildUrl(baseURL: string): (url: string)
    ensures IsNativeFormat(baseURL) ==> url == TrimSuffix(baseURL, "/") + NativeChatPath
    ensures !IsNativeFormat(baseURL) ==> url == baseURL + CompatibleChatPath
  {
    if baseURL == "https://ollama.com" || baseURL == "http://ollama.com" then
      InlineNativeTestAgrees(baseURL);
      assert baseURL[|baseURL| - 1] != '/';
      baseURL + "/api/chat"
    else if HasSuffix(baseURL, "ollama.com") || HasSuffix(baseURL, "ollama.com/") then
      TrimSuffix(baseURL, "/") + "/api/chat"
    else
      baseURL + "/chat/completions"
  }

  /** The endpoint is a `/api/chat` one exactly when the URL selects the native format. */
  lemma EndpointSelectsFormat(baseURL: string)
    ensures HasSuffix(BuildUrl(baseURL), NativeChatPath) <==> IsNativeFormat(baseURL)
  {
    var url := BuildUrl(baseURL);
    if IsNativeFormat(baseURL) {
      HasSuffixAfter(TrimSuffix(baseURL, "/"), NativeChatPath, NativeChatPath);
      assert NativeChatPath[..] == NativeChatPath;
    } else {
      assert url[|url| - 1 - 8] == CompatibleChatPath[|CompatibleChatPath| - 1 - 8];
      assert NativeChatPath[0] == '/' != 'm';
    }
  }

  /**
   A native endpoint ends with `ollama.com/api/chat`, and what stands before
   `/api/chat` is the base URL itself or the base URL less one trailing slash.
   */
  lemma NativeEndpointShape(baseURL: string)
    requires IsNativeFormat(baseURL)
    ensures HasSuffix(BuildUrl(baseURL), NativeHost + NativeChatPath)
    ensures var host := BuildUrl(baseURL)[..|BuildUrl(baseURL)| - |NativeChatPath|];
      baseURL == host || baseURL == host + "/"
  {
    var t := TrimSuffix(baseURL, "/");
    var url := BuildUrl(baseURL);
    assert url == t + NativeChatPath;
    NativeFormatAfterTrim(baseURL);
    assert t[|t| - |NativeHost|..] == NativeHost;
    assert url[|url| - |NativeHost + NativeChatPath|..] == t[|t| - |NativeHost|..] + NativeChatPath;
    assert url[..|url| - |NativeChatPath|] == t;
  }

  /** The native endpoints of the two hosts the code names, with and without a trailing slash. */
  lemma NativeEndpointExamples()
    ensures BuildUrl("https://ollama.com") == "https://ollama.com/api/chat"
    ensures BuildUrl("https://ollama.com/") == "https://ollama.com/api/chat"
  {
  }

  /** `https://api.ollama.com` is classified by its suffix, so it gets the native endpoint. */
  lemma ApiHostEndpointExample()
    ensures BuildUrl("https://api.ollama.com") == "https://api.ollama.com/api/chat"
  {
  }

  /** The default base URL gets `/chat/completions` appended verbatim. */
  lemma DefaultEndpointExample()
    ensures BuildUrl(DefaultOllamaBaseURL) == "https://api.ollama.com/v1/chat/completions"
  {
  }

  /** Another host gets `/chat/completions` appended. */
  lemma OtherHostEndpointExample()
    ensures BuildUrl("https://api.example.com") == "https://api.example.com/chat/completions"
  {
    var h := "https://api.example.com";
    assert h[|h| - |NativeHost|] != NativeHost[0];
    assert h[|h| - 11] != (NativeHost + "/")[0];
    assert !IsNativeFormat(h);
    assert BuildUrl(h) == h + CompatibleChatPath;
  }

  /** The compatible endpoint does no slash normalisation: a trailing slash stays. */
  lemma TrailingSlashEndpointExample()
    ensures BuildUrl("https://api.example.com/") == "https://api.example.com//chat/completions"
  {
    var k := "https://api.example.com/";
    assert k[|k| - 1] != NativeHost[|NativeHost| - 1];
    assert k[|k| - 11] != (NativeHost + "/")[0];
    assert !IsNativeFormat(k);
    assert BuildUrl(k) == k + CompatibleChatPath;
  }

  // ---------------------------------------------------------------------
  // Request body
  // ---------------------------------------------------------------------

  /** One `{"role": ..., "content": ...}` entry of the message list. */
  datatype Message = Message(role: string, content: string)

  /** The native request body: `{"model", "messages", "stream"}`. */
  datatype NativeRequest = NativeRequest(model: string, messages: seq<Message>, stream: bool)

  /**
   What `buildMCPRequestBody` yields: the native body, or the base client's own
   builder called with the two prompts unchanged (that builder is not part of
   this model).
   */
  datatype RequestPayload =
    | NativeBody(request: NativeRequest)
    | BaseClientBody(systemPrompt: string, userPrompt: string)

  /**
   The native body: a `system` message only for a non-empty system prompt,
   then exactly one `user` message; the configured model; streaming off.
   */
  function NativeRequestBody(model: string, systemPrompt: string, userPrompt: string): (body: NativeRequest)
    ensures body.model == model && !body.stream
    ensures |body.messages| == if systemPrompt == "" then 1 else 2
    ensures body.messages[|body.messages| - 1] == Message("user", userPrompt)
    ensures systemPrompt != "" ==> body.messages[0] == Message("system", systemPrompt)
  {
    var messages := if systemPrompt != "" then [Message("system", systemPrompt)] else [];
    var messages := messages + [Message("user", userPrompt)];
    NativeRequest(model, messages, false)
  }

  /**
   Reads the two prompts back out of a native body whose messages are a
   `user` message, optionally preceded by a `system` one.
   */
  function PromptsOf(request: NativeRequest): Option<(string, string)> {
    var m := request.messages;
    if |m| == 1 && m[0].role == "user" then
      Some(("", m[0].content))
    else if |m| == 2 && m[0].role == "system" && m[1].role == "user" then
      Some((m[0].content, m[1].content))
    else
      None
  }

  /** The native body loses nothing: both prompts can be read back from it. */
  lemma RequestRoundTrip(model: string, systemPrompt: string, userPrompt: string)
    ensures PromptsOf(NativeRequestBody(model, systemPrompt, userPrompt)) == Some((systemPrompt, userPrompt))
  {
  }

  /**
   `buildMCPRequestBody`: the native body when the base URL selects the native
   format, otherwise the prompts go to the base client's builder unchanged.
   */
  function BuildMCPRequestBody(baseURL: string, model: string, systemPrompt: string, userPrompt: string): (p: RequestPayload)
    ensures p.NativeBody? <==> IsNativeFormat(baseURL)
    ensures p.NativeBody? ==> p.request == NativeRequestBody(model, systemPrompt, userPrompt)
    ensures p.BaseClientBody? ==> p.systemPrompt == systemPrompt && p.userPrompt == userPrompt
  {
    InlineNativeTestAgrees(baseURL);
    if InlineNativeTest(baseURL) then
      NativeBody(NativeRequestBody(model, systemPrompt, userPrompt))
    else
      BaseClientBody(systemPrompt, userPrompt)
  }

  // ---------------------------------------------------------------------
  // Response
  // ---------------------------------------------------------------------

  /** `{"message": {"content": ...}, "done": ...}` as the native API answers. */
  datatype ResponseMessage = ResponseMessage(content: string)
  datatype NativeResponse = NativeResponse(message: ResponseMessage, done: bool)

  /**
   What decoding the response bytes gives: the record (a field absent from the
   bytes reads as its zero value), or the decoder's error.
   */
  datatype Decoded = Decoded(response: NativeResponse) | Malformed(cause: string)

  /** The two failures of the native parser; a decode failure wraps its cause. */
  datatype ParseError = DecodeError(cause: string) | EmptyResponse

  datatype ParseResult = Reply(text: string) | Failed(error: ParseError)

  /**
   What `parseMCPResponse` yields: the native parser's result, or the bytes go
   to the base client's own parser unchanged (not part of this model).
   */
  datatype ResponseOutcome =
    | NativeParse(result: ParseResult)
    | BaseClientParse(body: seq<byte>)

  /**
   The native parser after decoding: a decode error is passed on, an empty
   `message.content` is an error, any other content is the reply. `done` is
   never looked at.
   */
  function ParseNativeResponse(decoded: Decoded): (r: ParseResult)
    ensures r.Reply? <==> decoded.Decoded? && decoded.response.message.content != ""
    ensures r.Reply? ==> r.text == decoded.response.message.content && r.text != ""
    ensures decoded.Malformed? ==> r == Failed(DecodeError(decoded.cause))
    ensures decoded.Decoded? && decoded.response.message.content == "" ==> r == Failed(EmptyResponse)
  {
    match decoded
    case Malformed(cause) => Failed(DecodeError(cause))
    case Decoded(response) =>
      if response.message.content == "" then Failed(EmptyResponse)
      else Reply(response.message.content)
  }

  /** The `done` flag has no bearing on the parse. */
  lemma DoneIgnored(content: string, done1: bool, done2: bool)
    ensures ParseNativeResponse(Decoded(NativeResponse(ResponseMessage(content), done1)))
         == ParseNativeResponse(Decoded(NativeResponse(ResponseMessage(content), done2)))
  {
  }

  /**
   `parseMCPResponse`: the native parser on the decoded bytes when the base URL
   selects the native format, otherwise the bytes go to the base client.
   The JSON decoder is the parameter `decode`.
   */
  function ParseMCPResponse(baseURL: string, body: seq<byte>, decode: seq<byte> -> Decoded): (o: ResponseOutcome)
    ensures o.NativeParse? <==> IsNativeFormat(baseURL)
    ensures o.NativeParse? ==> o.result == ParseNativeResponse(decode(body))
    ensures o.BaseClientParse? ==> o.body == body
  {
    InlineNativeTestAgrees(baseURL);
    if InlineNativeTest(baseURL) then
      NativeParse(ParseNativeResponse(decode(body)))
    else
      BaseClientParse(body)
  }

  /**
   The three places that classify the base URL agree: the endpoint is a
   `/api/chat` one exactly when the request is built in the native format and
   exactly when the response is parsed in the native format.
   */
  lemma FormatChoicesAgree(baseURL: string, model: string, systemPrompt: string, userPrompt: string,
                           body: seq<byte>, decode: seq<byte> -> Decoded)
    ensures HasSuffix(BuildUrl(baseURL), NativeChatPath)
        <==> BuildMCPRequestBody(baseURL, model, systemPrompt, userPrompt).NativeBody?
    ensures BuildMCPRequestBody(baseURL, model, systemPrompt, userPrompt).NativeBody?
        <==> ParseMCPResponse(baseURL, body, decode).NativeParse?
  {
    EndpointSelectsFormat(baseURL);
  }

  /**
   The preset configuration (the default base URL and model) selects the
   OpenAI-compatible format: the prompts and the response bytes go to the base
   client, and the endpoint is the default URL with `/chat/completions`.
   */
  lemma DefaultConfigurationIsCompatible(systemPrompt: string, userPrompt: string,
                                         body: seq<byte>, decode: seq<byte> -> Decoded)
    ensures BuildUrl(DefaultOllamaBaseURL) == DefaultOllamaBaseURL + CompatibleChatPath
    ensures BuildMCPRequestBody(DefaultOllamaBaseURL, DefaultOllamaModel, systemPrompt, userPrompt)
         == BaseClientBody(systemPrompt, userPrompt)
    ensures ParseMCPResponse(DefaultOllamaBaseURL, body, decode) == BaseClientParse(body)
  {
    ClassificationExamples();
  }

  // ---------------------------------------------------------------------
  // Credentials
  // ---------------------------------------------------------------------

  /** The credential carried by an `Authorization` value of the bearer scheme. */
  function BearerToken(value: string): Option<string> {
    if HasPrefix(value, BearerPrefix) then Some(value[|BearerPrefix|..]) else None
  }

  /** The `Authorization` value `setAuthHeader` writes: a bearer token carrying the credential. */
  function BearerValue(apiKey: string): (value: string)
    ensures HasPrefix(value, BearerPrefix)
    ensures BearerToken(value) == Some(apiKey)
  {
    var value := "Bearer " + apiKey;
    assert value[..|BearerPrefix|] == BearerPrefix;
    value
  }

  /**
   The redacted preview `SetAPIKey` logs: the first and the last four
   characters, only for a credential longer than eight, so the two slices are
   in bounds and never overlap.
   */
  function KeyPreview(apiKey: string): (r: Option<(string, string)>)
    ensures r.Some? <==> |apiKey| > 8
    ensures r.Some? ==> |r.value.0| == 4 && |r.value.1| == 4
    ensures r.Some? ==> HasPrefix(apiKey, r.value.0) && HasSuffix(apiKey, r.value.1)
    ensures r.Some? ==> |r.value.0| + |r.value.1| < |apiKey|
  {
    if |apiKey| > 8 then Some((apiKey[..4], apiKey[|apiKey| - 4..])) else None
  }
}
