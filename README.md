# Ollama provider adapter — a Dafny model

This project models the Ollama provider adapter of an AI chat client (`mcp/ollama_client.go`).
The adapter plugs into a generic base client. It supplies four things: the
bearer `Authorization` header, the endpoint URL, the request body and the
extraction of the reply from the response. The endpoint, body and reply
depend on one decision, which the adapter makes again on every call from the
base URL currently configured:

- **native format**: the base URL ends with `ollama.com` or `ollama.com/`.
  The endpoint is `<base URL less one trailing slash>/api/chat`. The body is
  Ollama's own `{model, messages, stream: false}`. The reply is
  `message.content` of `{"message": {"content": ...}, "done": ...}`.
- **OpenAI-compatible format**: every other base URL, the empty one and the
  default `https://api.ollama.com/v1` included. The endpoint is the base URL
  with `/chat/completions` appended verbatim. Body and reply are left to the
  base client.

The model has three modules:

- `GoStrings` (`go_strings.dfy`): `strings.HasPrefix`, `strings.HasSuffix`
  and `strings.TrimSuffix` as Go defines them. Comparison is exact, character
  by character, with no case folding.
- `OllamaWire` (`ollama_wire.dfy`): the pure logic. It covers the
  classification predicate `IsNativeFormat`, the inline copy of the test that
  the request builder and response parser write out (`InlineNativeTest`),
  `BuildUrl`, the native request body, the native response parser, the bearer
  header value and the redacted credential preview. Each function takes the
  base URL and model it reads as parameters.
- `OllamaAdapter` (`ollama_adapter.dfy`): the mutable state. The class
  `OllamaClient` holds the fields `apiKey`, `baseURL` and `model`. `SetAPIKey`
  assigns them under the override-or-retain rule. `SetAuthHeader` writes into
  a `Header` object in place. The receiver functions `BuildUrl`,
  `BuildMCPRequestBody` and `ParseMCPResponse` read `baseURL` when they are
  called, so nothing is cached.

The code, not its comments, decides the classification. The comment at
`mcp/ollama_client.go:84` says `https://api.ollama.com` uses the
OpenAI-compatible format. The comment at line 94 speaks of URLs ending with
`/ollama.com`. The test at line 95, however, is a bare suffix test on
`ollama.com`. So `https://api.ollama.com` and `https://notollama.com` are
native (`ClassificationExamples`, `ApiHostEndpointExample`). The model
follows the test as written and adds no host-case normalisation
(`https://OLLAMA.COM` is compatible).

The classification can be read in two ways. One is an exact `ollama.com`
host or a suffix test. The other is "after stripping one trailing slash,
ends with `ollama.com`". `InlineNativeTestAgrees` and
`NativeFormatAfterTrim` prove that both readings equal `IsNativeFormat`.

## Model

| member | source | states |
|---|---|---|
| `OllamaWire.InlineNativeTestAgrees` | mcp/ollama_client.go:111-114 | The four-way test written out in the request builder and the response parser (lines 111-114 and 148-151) holds exactly when the URL ends with `ollama.com` or `ollama.com/`. The two exact host comparisons add nothing. |
| `OllamaWire.NativeFormatAfterTrim` | mcp/ollama_client.go:94-97 | A URL is native exactly when it ends with `ollama.com` after at most one trailing slash is removed. |
| `OllamaWire.ClassificationExamples` | mcp/ollama_client.go:90-95 | `https://ollama.com`, `http://ollama.com`, `https://ollama.com/`, `https://api.ollama.com` and `https://notollama.com` are native. The default URL, the empty URL, `https://notollama.com/foo`, `https://api.example.com` (with or without a trailing slash), `https://OLLAMA.COM` and `https://ollama.com//` are compatible. |
| `OllamaWire.BuildUrl` | mcp/ollama_client.go:86-103 | For a native URL, the result is the URL with at most one trailing slash removed, followed by `/api/chat`. This holds in the exact-host branch too. For any other URL, the result is the URL unchanged followed by `/chat/completions`. |
| `OllamaWire.EndpointSelectsFormat` | mcp/ollama_client.go:86-103 | The endpoint ends with `/api/chat` if and only if the URL is native. So the branches of `buildUrl` select exactly the predicate used by the other two operations. |
| `OllamaWire.NativeEndpointShape` | mcp/ollama_client.go:94-98 | A native endpoint always ends with `ollama.com/api/chat`. What precedes `/api/chat` is the base URL, or the base URL less its one trailing slash. |
| `OllamaWire.NativeEndpointExamples` | mcp/ollama_client.go:90-98 | Both `https://ollama.com` and `https://ollama.com/` give `https://ollama.com/api/chat`. |
| `OllamaWire.ApiHostEndpointExample` | mcp/ollama_client.go:94-98 | `https://api.ollama.com` gets the native endpoint `https://api.ollama.com/api/chat`, contrary to the comment at line 84. |
| `OllamaWire.DefaultEndpointExample` | mcp/ollama_client.go:101-102 | The default base URL `https://api.ollama.com/v1` (line 12) gives `https://api.ollama.com/v1/chat/completions`. |
| `OllamaWire.OtherHostEndpointExample` | mcp/ollama_client.go:101-102 | `https://api.example.com` gives `https://api.example.com/chat/completions`. |
| `OllamaWire.TrailingSlashEndpointExample` | mcp/ollama_client.go:101-102 | In the compatible branch, a trailing slash is kept: `https://api.example.com/` gives `https://api.example.com//chat/completions`. |
| `OllamaWire.NativeRequestBody` | mcp/ollama_client.go:116-134 | The body carries the given model and `stream` false. It holds one message when the system prompt is empty and two otherwise. The last message is `user` with the user prompt. When there are two, the first is `system` with the system prompt. |
| `OllamaWire.RequestRoundTrip` | mcp/ollama_client.go:118-128 | Both prompts can be read back from the native message list, so the body loses nothing. |
| `OllamaWire.BuildMCPRequestBody` | mcp/ollama_client.go:107-140 | The native body is built if and only if the URL is native. Otherwise both prompts go unchanged to the base client's builder. |
| `OllamaWire.ParseNativeResponse` | mcp/ollama_client.go:153-171 | The parse succeeds if and only if decoding succeeded with a non-empty `message.content`, and the reply is that content unchanged. A decode failure gives `DecodeError` wrapping the decoder's cause. An empty content gives `EmptyResponse`. |
| `OllamaWire.DoneIgnored` | mcp/ollama_client.go:155-170 | The `done` field never changes the result. |
| `OllamaWire.ParseMCPResponse` | mcp/ollama_client.go:144-176 | The native parser runs on the decoded bytes if and only if the URL is native. Otherwise the bytes go unchanged to the base client's parser. |
| `OllamaWire.FormatChoicesAgree` | mcp/ollama_client.go:86-151 | For every base URL, three choices agree: `buildUrl` picks `/api/chat`, `buildMCPRequestBody` builds the native body, and `parseMCPResponse` uses the native parser. Each holds exactly when the others do. |
| `OllamaWire.BearerValue` | mcp/ollama_client.go:77-80 | The `Authorization` value starts with `Bearer `, and the token it carries is exactly the credential. |
| `OllamaWire.KeyPreview` | mcp/ollama_client.go:60-61 | A preview exists if and only if the credential is longer than 8. It is the first four and last four characters. These two slices are in bounds and do not overlap. |
| `OllamaAdapter.OllamaClient.SetAPIKey` | mcp/ollama_client.go:57-75 | The credential is always replaced. The base URL is replaced if and only if `customURL` is non-empty, and the model if and only if `customModel` is non-empty. Otherwise each keeps its old value. No other field changes. |
| `OllamaAdapter.OllamaClient.SetAuthHeader` | mcp/ollama_client.go:77-80 | `Authorization` becomes the bearer value of the current credential, whatever the wire format. Every other header keeps its value. |
| `OllamaAdapter.OllamaClient.BuildUrl` | mcp/ollama_client.go:86-103 | The endpoint for the base URL at the time of the call ends with `/api/chat` if and only if that URL is native. |
| `OllamaAdapter.OllamaClient.BuildMCPRequestBody` | mcp/ollama_client.go:107-140 | The body is native if and only if the current base URL is native. It then carries the current model, and both prompts can be read back from it. |
| `OllamaAdapter.OllamaClient.ParseMCPResponse` | mcp/ollama_client.go:144-176 | The native parser runs if and only if the current base URL is native. A reply it returns is never empty. |
| `GoStrings.HasSuffix` | mcp/ollama_client.go:95 | `strings.HasSuffix`: the suffix is the final segment of the string, compared exactly with no case folding. `HasSuffixAfter`, `HasSuffixSnoc` and `LastOfSuffix` are its helper facts. |
| `GoStrings.TrimSuffix` | mcp/ollama_client.go:97 | `strings.TrimSuffix`: when the string ends with the suffix, the result followed by the suffix is the string; otherwise the string is returned unchanged. |
| `OllamaWire.IsNativeFormat` | mcp/ollama_client.go:95 | The single wire-format predicate: the URL ends with `ollama.com` or `ollama.com/`. Its meaning is proved by `InlineNativeTestAgrees` (it equals the four-way test of lines 111-114 and 148-151) and `NativeFormatAfterTrim` (it equals "ends with `ollama.com` after one trailing slash is stripped"). |
| `OllamaWire.InlineNativeTest` | mcp/ollama_client.go:111-114 | The four-way test exactly as written at lines 111-114 and again at 148-151: two exact host comparisons, then the two suffix tests. `BuildMCPRequestBody` and `ParseMCPResponse` branch on it. |
| `OllamaWire.DefaultConfigurationIsCompatible` | mcp/ollama_client.go:10-14 | With the preset base URL and model, the endpoint is the default URL followed by `/chat/completions`, and both the request and the response go to the base client unchanged. |
| `OllamaAdapter.Header.Set` | mcp/ollama_client.go:79 | `reqHeaders.Set`: the header map afterwards is the old map with the key bound to the value, and every other key is unchanged. |

## Left out

- JSON decoding (`json.Unmarshal`) is the parameter `decode`. It returns either the decoded record or a decode error. When a field is absent from otherwise valid JSON, `decode` yields its zero value, as Go does, so a missing `message` reaches the empty-content error.
- The compatible-format request builder and response parser belong to the base client, which is not part of this model. The model records only that they receive the prompts or the bytes unchanged (`BaseClientBody`, `BaseClientParse`).
- `NewOllamaClientWithOptions`: its option merging relies on `NewClient` and `ClientOption`, which are not part of this model. The hook assignment is dispatch wiring. The constructor of `OllamaClient` takes the configuration that construction left.
- Logger output of `SetAPIKey` is not modelled. The one fact kept is the bounds of the redacted preview (`KeyPreview`).
- `http.Header` is reduced to one string value per name. Key canonicalisation and multi-valued headers are not modelled. `Authorization` is already canonical.
- Concurrency: the fields are unsynchronised in the source. The model is sequential.
- Go strings are bytes; the model uses `seq<char>`. Every literal the code compares against is ASCII, so the suffix tests, `BuildUrl` and the bearer value agree with Go on byte-wise input.
- OllamaWire.KeyPreview: agrees with Go only when each `char` stands for one byte. Go's `len(apiKey) > 8` and its `[:4]`/`[len-4:]` slices count bytes, so a key of five 2-byte characters gets a preview (of byte slices) from Go but none in this model.
