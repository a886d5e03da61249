/**
 The stateful side of the Ollama provider adapter: the client whose
 credential, base URL and model are plain mutable fields, and the outbound
 header map it writes the credential into.
 */
module OllamaAdapter {
  import opened GoStrings
  import opened OllamaWire

  /** An outbound request's headers, reduced to one value per header name. */
  class Header {
    var entries: map<string, string>

    constructor ()
      ensures entries == map[]
    {
      entries := map[];
    }

    /** Replaces whatever `key` held with `value`. */
    method Set(key: string, value: string)
      modifies this
      ensures entries == old(entries)[key := value]
    {
      entries := entries[key := value];
    }
  }

  /**
   The adapter's configuration. Each of the receiver functions below reads
   `baseURL` at the moment it is called, so a change made by `SetAPIKey`
   takes effect on the next call.
   */
  class OllamaClient {
    var apiKey: string
    var baseURL: string
    var model: string

    /** A client as its construction options left it. */
    constructor (apiKey: string, baseURL: string, model: string)
      ensures this.apiKey == apiKey && this.baseURL == baseURL && this.model == model
    {
      this.apiKey := apiKey;
      this.baseURL := baseURL;
      this.model := model;
    }

    /**
     The credential is always replaced; the base URL and the model only when
     their override is non-empty, otherwise they keep their values.
     */
    method SetAPIKey(apiKey: string, customURL: string, customModel: string)
      modifies this
      ensures this.apiKey == apiKey
      ensures baseURL == if customURL != "" then customURL else old(baseURL)
      ensures model == if customModel != "" then customModel else old(model)
    {
      this.apiKey := apiKey;
      if customURL != "" {
        baseURL := customURL;
      }
      if customModel != "" {
        model := customModel;
      }
    }

    /**
     Writes the bearer credential into `Authorization`, whatever the wire
     format, and leaves every other header as it was.
     */
    method SetAuthHeader(reqHeaders: Header)
      modifies reqHeaders
      ensures reqHeaders.entries == old(reqHeaders.entries)[AuthorizationHeader := BearerValue(apiKey)]
      ensures BearerToken(reqHeaders.entries[AuthorizationHeader]) == Some(apiKey)
      ensures forall k :: k in old(reqHeaders.entries) && k != AuthorizationHeader ==>
                k in reqHeaders.entries && reqHeaders.entries[k] == old(reqHeaders.entries)[k]
    {
      reqHeaders.Set("Authorization", "Bearer " + apiKey);
    }

    /** `buildUrl` on the current base URL. */
    function BuildUrl(): (url: string)
      reads this
      ensures HasSuffix(url, NativeChatPath) <==> IsNativeFormat(baseURL)
    {
      EndpointSelectsFormat(baseURL);
      OllamaWire.BuildUrl(baseURL)
    }

    /** `buildMCPRequestBody` on the current base URL and model. */
    function BuildMCPRequestBody(systemPrompt: string, userPrompt: string): (p: RequestPayload)
      reads this
      ensures p.NativeBody? <==> IsNativeFormat(baseURL)
      ensures p.NativeBody? ==> p.request.model == model && PromptsOf(p.request) == Some((systemPrompt, userPrompt))
    {
      RequestRoundTrip(model, systemPrompt, userPrompt);
      OllamaWire.BuildMCPRequestBody(baseURL, model, systemPrompt, userPrompt)
    }

    /** `parseMCPResponse` on the current base URL; `decode` is the JSON decoder. */
    function ParseMCPResponse(body: seq<byte>, decode: seq<byte> -> Decoded): (o: ResponseOutcome)
      reads this
      ensures o.NativeParse? <==> IsNativeFormat(baseURL)
      ensures o.NativeParse? && o.result.Reply? ==> o.result.text != ""
    {
      OllamaWire.ParseMCPResponse(baseURL, body, decode)
    }
  }
}
