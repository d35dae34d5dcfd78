# Request shaping of the ai-assistant Laravel package

The package wraps several generative-AI HTTP APIs (Anthropic Claude, OpenAI,
Google Gemini) behind service classes. Every call follows the same pattern:

- read settings from Laravel's configuration;
- resolve per-call options against defaults with `??`;
- build a JSON payload, a URL and headers;
- hand the request to Guzzle or to the OpenAI SDK;
- turn the decoded answer or the caught exception into a PHP array.

This project models that request-shaping layer in Dafny. It covers the
Claude, OpenAI and Gemini service classes, the `FileUploaderTrait` and
`ClaudeRequest` traits, and the `AIManager` registry.

How PHP and the outside world are represented:

- Configuration is a `map<string, Json>` keyed by the literal strings in the
  code, so a misspelt key simply misses.
- The transport is a function from a request to an answer: a decoded body
  with response headers, or a failure message. The OpenAI SDK is a function
  from a call to a reply.
- Every operation returns the requests it sent, in order, together with how
  the PHP call ended: a returned array, or a throwable escaping it.

The model follows the code as written. Several methods read the undefined
`$option` instead of `$options`, and several configuration keys are
misspelt. These are modelled as they behave, and the corrected versions are
given beside them (see Findings).

Modules:

- `Php`: the JSON value type, `??`, `empty()`, string conversion,
  `array_merge` and typed-property assignment.
- `Http`: requests, answers and the transport.
- `Base64`: `base64_encode` per section 4 of RFC 4648, with its decoder and
  the round trip proved.
- `FileUploaderTrait`, `ClaudeRequest`: the two traits.
- `ClaudeCommon`, `ClaudeAIService`, `Claude`: the Claude classes.
- `OpenAIClient`, `OpenAIService`, `OpenAI`: the OpenAI classes.
- `GeminiProtocol`, `GeminiAIService`, `Gemini`: the Gemini classes. The
  three-step upload is a step function over phases, proved equal to the
  straight-line flow.
- `AIManager`: the registry.

## Model

| member | source | states |
|---|---|---|
| Php.Coalesce | src/Services/OpenAI.php:25-28 | `$a[$k] ?? $d` is the entry exactly when the key is present and non-null, and the fallback otherwise |
| Php.AssignString | src/Services/GeminiAIService.php:37-38 | storing into a `string` property succeeds exactly for scalars and yields their string form; null or an array raises a TypeError |
| Php.ArrayMerge | src/Traits/ClaudeRequest.php:30 | `array_merge` on string keys: the keys are the union, the right side wins on a shared key, and left-only entries are kept |
| Base64.Encode | src/Traits/FileUploaderTrait.php:25 | the encoding is four characters for every started group of three bytes |
| Base64.DecodeEncode | src/Traits/FileUploaderTrait.php:25 | decoding the encoding of any byte sequence gives back that sequence (proved by induction over groups of three) |
| Base64.EncodeFalsy | src/Traits/FileUploaderTrait.php:41 | the encoding is empty exactly for empty content and is never the falsy string "0" |
| FileUploaderTrait.DetermineMimeType | src/Traits/FileUploaderTrait.php:65-80 | each of the six listed extensions maps to its MIME type and back (if and only if); every other extension gives `application/octet-stream` |
| FileUploaderTrait.ExtensionOf | src/Traits/FileUploaderTrait.php:67 | the `pathinfo` extension is exactly the text after the last `.` of the last path component |
| FileUploaderTrait.MimeTypeIsExact | src/Traits/FileUploaderTrait.php:67-79 | the lookup is exact: a query string, upper case or no extension falls back to the generic type |
| FileUploaderTrait.FromUrl | src/Traits/FileUploaderTrait.php:17-29 | a failed fetch throws "Unable to fetch the file from {url}" and changes nothing; otherwise the stored data decodes to the fetched bytes and the stored type is the URL's MIME type |
| FileUploaderTrait.BuildPayload | src/Traits/FileUploaderTrait.php:39-57 | it throws the "incomplete" exception if and only if either property is null or falsy; otherwise it returns the `document` block with a `base64` source holding both properties |
| FileUploaderTrait.FetchThenBuild | src/Traits/FileUploaderTrait.php:17-57 | fetching then building succeeds exactly when the fetched file is non-empty, and the block's data decodes back to the file |
| ClaudeRequest.DefaultHeaders | src/Traits/ClaudeRequest.php:21-25 | exactly three default headers: JSON content type, the configured key and the configured version |
| ClaudeRequest.SendRequest | src/Traits/ClaudeRequest.php:18-45 | one request; the URL is the base URL followed directly by the suffix; the headers are the defaults merged with the caller's; an array body is returned; a non-array body raises the \Error of the unresolved `Traits\Exception` class; failures escape uncaught |
| ClaudeRequest.SendRequestDefaults | src/Traits/ClaudeRequest.php:18 | with the default arguments the method is POST and only the default headers are sent |
| ClaudeRequest.HeaderOverride | src/Traits/ClaudeRequest.php:30 | a caller header replaces the default of the identical name; a name differing only in case is kept beside it |
| ClaudeCommon.Wrap | src/Services/ClaudeAIService.php:54-64 | an array body is the result; a non-array body gives the "Unexpected response format" error; a client exception gives `{error: message}` |
| ClaudeCommon.ReturnArray | src/Services/ClaudeAIService.php:124-129 | a body returned without an `is_array` check: an array passes, a non-array is refused by the `array` return type, and a failure gives the method's error shape |
| ClaudeCommon.DocumentPayload | src/Services/ClaudeAIService.php:85-111 | one user message with exactly two content blocks: the PDF `document` block with ephemeral cache control first, then the text query |
| ClaudeCommon.AnalyzeDocument | src/Services/ClaudeAIService.php:75-129 | a failed fetch sends nothing and returns the fetch error; otherwise one POST of the document payload, with the defaults "Analyze this document" and 1024 tokens |
| ClaudeAIService.New | src/Services/ClaudeAIService.php:15-32 | a null or array key or URL raises a TypeError first; otherwise it is rejected exactly when the key, URL or version is empty, and the client is built from the stored values |
| ClaudeAIService.NullApiKeyIsTypeError | tests/Unit/ClaudeAIServiceTest.php:34-42 | the test's null key raises a TypeError, not the InvalidArgumentException the test expects |
| ClaudeAIService.NewChecked | src/Services/ClaudeAIService.php:21-23 | the corrected constructor rejects null settings with the documented exception and otherwise is the original |
| ClaudeAIService.NewCheckedAgrees | tests/Unit/ClaudeAIServiceTest.php:34-42 | the corrected constructor meets the test and agrees with the original wherever that builds a client |
| ClaudeAIService.GenerateText | src/Services/ClaudeAIService.php:34-65 | one POST with payload exactly `{model, max_tokens, messages, stream:false}`, model and token limit read from the misspelt `api.` keys, result by the `is_array` rule |
| ClaudeAIService.GenerateTextIgnoresOptions | src/Services/ClaudeAIService.php:36-38 | any two option arrays give the same request and result |
| ClaudeAIService.GenerateTextWithOptions | src/Services/ClaudeAIService.php:36-51 | the corrected call lets non-null `model`, `maxTokens` and `stream` options win, and is the original when none is given |
| ClaudeAIService.DocumentHeaders | src/Services/ClaudeAIService.php:115-119 | the document call's headers carry a null `x-api-key` (undefined property) and the stored version over the client's defaults |
| ClaudeAIService.AnalyzeDocumentWithQuery | src/Services/ClaudeAIService.php:70-130 | a failed fetch returns `{error: "Unable to fetch the file from {url}"}` and sends nothing; otherwise the default query, the configured model and 1024 tokens are sent, and the data decodes to the file; the call is a POST, and an array answer is returned as is |
| ClaudeAIService.AnalyzeIgnoresOptions | src/Services/ClaudeAIService.php:72-74 | the options never change the request or the result |
| ClaudeAIService.UseTool | src/Services/ClaudeAIService.php:132-166 | an empty or missing tool throws "Tool is a required option in configuration." before any request; otherwise one POST whose options win over the defaults 1024, false and the configured model |
| ClaudeAIService.UseToolExtendsGenerateText | src/Services/ClaudeAIService.php:132-158 | `useTool` sends the options-aware `generateText` request plus `tools`: same verb, URL, headers, messages and stream flag, and the same payload with `tools` added when model and token limit are given; without them the defaults differ (the `ai.` model key, 1024 tokens); an array answer gives the same result |
| ClaudeAIService.ToolFailureShape | src/Services/ClaudeAIService.php:160-164 | a tool-call failure is `{error: true, message}`, unlike the `{error: message}` of the other calls |
| ClaudeAIService.BatchCall | src/Services/ClaudeAIService.php:173-192 | a string URI gives one request wrapped by the `is_array` rule; a non-string URI is refused by the client before anything is sent |
| ClaudeAIService.GenerateBatchMessages | src/Services/ClaudeAIService.php:168-193 | a string batch URL setting gives one bodiless POST to that URL with the call headers, its answer read by the `is_array` rule; any other setting gives the caught URI error with nothing sent |
| ClaudeAIService.BatchesNotSent | src/Services/ClaudeAIService.php:168-180 | neither the batches nor the options reach the request: every call under one configuration sends the same bodiless POST and returns the same result |
| ClaudeAIService.GetBatchMessages | src/Services/ClaudeAIService.php:195-217 | one GET to the batch URL followed by the token |
| ClaudeAIService.GetBatchMessagesResult | src/Services/ClaudeAIService.php:219-241 | one GET to the status URL of `getBatchMessages` followed by `/results`, with the call headers and no body |
| ClaudeAIService.ListBatchMessages | src/Services/ClaudeAIService.php:243-265 | one GET to the batch URL itself with the call headers, its answer read by the `is_array` rule, or the caught URI error with nothing sent when the setting is not a string |
| ClaudeAIService.CancelMessageBatch | src/Services/ClaudeAIService.php:267-289 | an unconditional GET to the status URL followed by `/cancel`; no batch state is checked |
| ClaudeAIService.BatchUrlsShareStem | src/Services/ClaudeAIService.php:198-270 | the results and cancel URLs extend the status URL, and the token can be read back from it |
| Claude.New | src/Services/Claude.php:14-30 | key and URL are stored as strings (TypeError for null or arrays), then rejected exactly when either is empty; no version is required |
| Claude.NewWeakerThanClaudeAIService | src/Services/Claude.php:19-21 | every configuration `ClaudeAIService` accepts is accepted here with the same fields, and some configuration without a version is accepted here only |
| Claude.PromptPayload | src/Services/Claude.php:35 | the payload's keys are `inputs` plus the option keys; every option is sent as given; the prompt survives unless an `inputs` option replaces it |
| Claude.GenerateText | src/Services/Claude.php:32-52 | one POST of the merged payload to the base URL with the client's headers; the result is always an array by the `is_array` rule |
| Claude.PromptUnlessOverridden | src/Services/Claude.php:35 | the merge adds exactly one key when no option is named `inputs` and none otherwise; without options the payload is the prompt alone |
| Claude.DocumentHeaders | src/Services/Claude.php:103-107 | a null `x-api-key` and the version read from the misspelt `ap.` key |
| Claude.AnalyzeDocumentWithQuery | src/Services/Claude.php:57-118 | a failed fetch returns the fetch error; otherwise one POST of the two-block payload with `application/pdf` whatever the file, an array answer returned as is |
| Claude.AnalyzeIgnoresOptionsAndVersion | src/Services/Claude.php:59-62 | neither the options nor the correctly spelt version key change the call |
| OpenAIClient.Invoke | src/Services/OpenAIService.php:35-45 | one SDK call; its response array is returned, an `Exception` becomes `{error: message}`, and an `\Error` escapes |
| OpenAIClient.StripPrefix | src/Services/OpenAIService.php:90 | the remainder exists if and only if the text starts with the prefix, and prefix plus remainder is the text |
| OpenAIClient.SummarizeRoundTrip | src/Services/OpenAIService.php:90 | the summary prompt is its fixed prefix followed by the text, so the text is recovered exactly |
| OpenAIClient.FindColon | src/Services/OpenAIService.php:109 | the position of the first `:` at or after the start, or the end when there is none |
| OpenAIClient.ParseTranslate | src/Services/OpenAIService.php:109 | every parse it returns rebuilds the prompt it was given |
| OpenAIClient.TranslateRoundTrip | src/Services/OpenAIService.php:109 | for a language without `:`, language and text are read back from the translation prompt |
| OpenAIClient.TranslateAmbiguous | src/Services/OpenAI.php:96 | a language holding the separator gives the same prompt as a different language and text |
| OpenAIClient.AnswerQuestionRecoverable | src/Services/OpenAI.php:130 | for a fixed context the question is what follows the fixed parts, so different questions give different prompts |
| OpenAIClient.AnswerAmbiguous | src/Services/OpenAI.php:130 | a context holding the question marker gives the same prompt as a shorter context |
| OpenAIService.New | src/Services/OpenAIService.php:20-28 | key and model are stored as strings, the model from the singular `ai.provider.` key; a null raises a TypeError; otherwise it is rejected exactly when the key is empty |
| OpenAIService.NewNeedsSingularKey | src/Services/OpenAIService.php:23 | a configuration naming the model only under `ai.providers.` never builds the service |
| OpenAIService.NewFromProvidersKey | src/Services/OpenAIService.php:22-26 | the corrected constructor reads the `ai.providers.` model key |
| OpenAIService.NewFromProvidersKeyBuilds | src/Services/OpenAIService.php:23 | with a key and a default model the corrected constructor builds the service, and the per-call fallbacks apply until `model()` is called |
| OpenAIService.SetModel | src/Services/OpenAIService.php:15-18 | `model()` replaces the model and keeps the key |
| OpenAIService.SelectModel | src/Services/OpenAIService.php:55 | the set model when it differs from the configured default, the call's fallback otherwise |
| OpenAIService.Completion | src/Services/OpenAIService.php:36-41 | exactly model, prompt, token limit and temperature, each option winning when non-null |
| OpenAIService.GenerateText | src/Services/OpenAIService.php:33-46 | one completions call with the set model; the result follows the shared rule: the response array, `{error: message}` for an `Exception`, an escaping `\Error` |
| OpenAIService.ChatCall | src/Services/OpenAIService.php:51-63 | one chat call with the selected model, `options['messages']` sent as given and the temperature rule; the result follows the shared rule: the response array, `{error: message}` for an `Exception`, an escaping `\Error` |
| OpenAIService.AnalyzeSentiment | src/Services/OpenAIService.php:68-80 | one classifications call with the set model, the text and the labels option or the default; the result follows the shared rule: the response array, `{error: message}` for an `Exception`, an escaping `\Error` |
| OpenAIService.SummarizeText | src/Services/OpenAIService.php:85-99 | a completion of the summary prompt; the result follows the shared rule: the response array, `{error: message}` for an `Exception`, an escaping `\Error` |
| OpenAIService.TranslateText | src/Services/OpenAIService.php:104-117 | a completion of the translation prompt; the result follows the shared rule: the response array, `{error: message}` for an `Exception`, an escaping `\Error` |
| OpenAIService.GenerateEmbeddings | src/Services/OpenAIService.php:122-133 | one embeddings call with the selected model (fallback `text-embedding-ada-002`) and the text as input; the result follows the shared rule: the response array, `{error: message}` for an `Exception`, an escaping `\Error` |
| OpenAIService.GenerateCode | src/Services/OpenAIService.php:138-151 | one completions call with the selected model (fallback `code-davinci-002`) and temperature defaulting to 0.2; the result follows the shared rule: the response array, `{error: message}` for an `Exception`, an escaping `\Error` |
| OpenAIService.SetModelReachesCalls | src/Services/OpenAIService.php:15-18 | after `model(m)` the four direct calls send `m`; the three selecting calls send `m` if and only if it differs from the configured default or equals their fallback |
| OpenAIService.OptionPrecedence | src/Services/OpenAIService.php:39-40 | non-null options are sent as given; absent or null ones give the configured defaults (0.2 for code) |
| OpenAIService.DefaultLabelsAreOneString | src/Services/OpenAIService.php:74 | the default labels are one string "Negative, Neutral, Positive", and a labels option replaces them |
| OpenAIService.ChatIgnoresConversation | src/Services/OpenAIService.php:51-56 | the conversation argument never changes the call |
| OpenAIService.ErrorsAreWrapped | src/Services/OpenAIService.php:43-45 | in each of the seven calls an `Exception` from the SDK comes back as `{error: message}` and an `\Error` escapes |
| OpenAI.Completion | src/Services/OpenAI.php:24-29 | exactly model, prompt, token limit and temperature; each option wins when non-null over its default |
| OpenAI.GenerateText | src/Services/OpenAI.php:21-34 | one completions call whose defaults come from the `ai.openai.*` keys; the result follows the shared rule: the response array, `{error: message}` for an `Exception`, an escaping `\Error` |
| OpenAI.ChatCall | src/Services/OpenAI.php:39-51 | model defaults to `gpt-4`; the messages come from the options; the result follows the shared rule: the response array, `{error: message}` for an `Exception`, an escaping `\Error` |
| OpenAI.AnalyzeSentiment | src/Services/OpenAI.php:56-68 | model defaults to `text-davinci-003`; the labels are always Positive, Neutral, Negative; the result follows the shared rule: the response array, `{error: message}` for an `Exception`, an escaping `\Error` |
| OpenAI.SummarizeText | src/Services/OpenAI.php:73-86 | a completion of the summary prompt with default model `text-davinci-003`; the result follows the shared rule: the response array, `{error: message}` for an `Exception`, an escaping `\Error` |
| OpenAI.TranslateText | src/Services/OpenAI.php:91-104 | a completion of the translation prompt with default model `text-davinci-003`; the result follows the shared rule: the response array, `{error: message}` for an `Exception`, an escaping `\Error` |
| OpenAI.GenerateEmbeddings | src/Services/OpenAI.php:109-120 | model defaults to `text-embedding-ada-002`; the input is the text; the result follows the shared rule: the response array, `{error: message}` for an `Exception`, an escaping `\Error` |
| OpenAI.AnswerQuestion | src/Services/OpenAI.php:125-138 | a completion of the context-and-question prompt; the result follows the shared rule: the response array, `{error: message}` for an `Exception`, an escaping `\Error` |
| OpenAI.GenerateCode | src/Services/OpenAI.php:143-156 | model defaults to `code-davinci-002` and temperature to 0.2; the result follows the shared rule: the response array, `{error: message}` for an `Exception`, an escaping `\Error` |
| OpenAI.Defaults | src/Services/OpenAI.php:25-150 | without options each of the eight calls sends its default model (the `ai.openai.default_model` setting, `gpt-4`, `text-davinci-003`, `text-embedding-ada-002` or `code-davinci-002`); the completion temperature is the configured one, 0.2 for code |
| OpenAI.ModelOptionOverrides | src/Services/OpenAI.php:25-147 | a non-null `model` option is the model sent by all eight calls |
| OpenAI.ErrorsAreWrapped | src/Services/OpenAI.php:31-33 | in each of the eight calls an `Exception` from the SDK comes back as `{error: message}` and an `\Error` escapes |
| OpenAI.LabelsAreFixed | src/Services/OpenAI.php:62 | the labels never depend on the options, and differ from `OpenAIService`'s default labels |
| OpenAI.PromptsCarryInputs | src/Services/OpenAI.php:78-96 | the summarized text, and the language and text of a translation, can be read back from the prompts sent |
| GeminiProtocol.Contents | src/Services/GeminiAIService.php:57-65 | the body has one `contents` entry whose `parts` are the given parts |
| GeminiProtocol.StartRequest | src/Services/GeminiAIService.php:88-103 | step 1 posts to the upload URL with the four upload headers over the client's defaults and body `{file: {display_name: "AUDIO"}}` |
| GeminiProtocol.UploadRequest | src/Services/GeminiAIService.php:108-118 | step 2 posts the file to the upload URL with its length, offset 0 and "upload, finalize" |
| GeminiProtocol.GenerateRequest | src/Services/GeminiAIService.php:122-143 | step 3 posts to the `generateContent` URL with the text part first and the `file_data` part second |
| GeminiProtocol.Step | src/Services/GeminiAIService.php:88-152 | one step issues exactly one request and lowers the number of steps left |
| GeminiProtocol.Run | src/Services/GeminiAIService.php:88-152 | the flow finishes after at most as many requests as steps left, extending what was sent |
| GeminiProtocol.Transcribe | src/Services/GeminiAIService.php:80-153 | the phase machine sends the same requests and ends the same way as the straight-line `try` block |
| GeminiProtocol.TranscribeShape | src/Services/GeminiAIService.php:88-152 | one to three requests in the fixed order; each request before the last was answered; a missing upload URL aborts; the first failure gives `{error}`; success gives `{data}` |
| GeminiProtocol.ClientHeaderKept | src/Services/Gemini.php:25-30 | every request of the flow carries each client default header that the upload steps do not set |
| GeminiProtocol.UploadUrlFlows | src/Services/GeminiAIService.php:105-121 | the step-1 upload URL is where step 2 sends the file and the `file_uri` of step 3 |
| GeminiAIService.New | src/Services/GeminiAIService.php:34-46 | null or array key or URL raises a TypeError; an empty one raises InvalidArgumentException; then the default model is stored |
| GeminiAIService.NullConfigIsTypeError | tests/Unit/GeminiAIServiceTest.php:26-35 | the test's null configuration raises a TypeError, not the InvalidArgumentException the test expects |
| GeminiAIService.NewChecked | src/Services/GeminiAIService.php:39-41 | the corrected constructor rejects null settings with the documented exception and otherwise is the original |
| GeminiAIService.NewCheckedAgrees | tests/Unit/GeminiAIServiceTest.php:26-35 | the corrected constructor meets the test and agrees with the original wherever that builds a service |
| GeminiAIService.Model | src/Services/GeminiAIService.php:22-26 | `model()` replaces the default model and keeps the rest |
| GeminiAIService.GenerateText | src/Services/GeminiAIService.php:48-77 | one POST without headers to `base + "models/" + model + "?key=" + key`; success under `data`, an exception under `error` |
| GeminiAIService.ModelReachesUrl | src/Services/GeminiAIService.php:50-51 | the model set by `model()` is read back from the URL, followed by `?key=`; options are unused |
| GeminiAIService.TestUrl | tests/Unit/GeminiAIServiceTest.php:19-23 | the test configuration gives the URL `https://test-gemini-api.com/models/test-model?key=test-api-key` |
| GeminiAIService.TranscribeAudio | src/Services/GeminiAIService.php:80-153 | the three-step flow with an empty model segment and no client headers |
| GeminiAIService.TranscribeIgnoresModel | src/Services/GeminiAIService.php:122 | whatever `model()` set, the third URL is `base + "/models/:generateContent?key=" + key` |
| GeminiAIService.TranscribeAudioWithModel | src/Services/GeminiAIService.php:122 | the corrected flow names the service's model in the third URL |
| GeminiAIService.TranscribeWithModelUsesModel | src/Services/GeminiAIService.php:122 | the corrected third URL carries the set model; the first request is unchanged; with an empty model it is the original |
| Gemini.New | src/Services/Gemini.php:15-31 | rejected exactly when key or URL is empty (null included); the model is the configured default or null |
| Gemini.NullKeyIsInvalidArgument | src/Services/Gemini.php:20-22 | a null key raises the InvalidArgumentException, unlike `GeminiAIService` |
| Gemini.ClientHeaders | src/Services/Gemini.php:26-29 | exactly `Authorization: Bearer <key>` and `Accept: application/json` |
| Gemini.GenerateText | src/Services/Gemini.php:33-62 | one POST with the client headers to the `generateContent` URL; success under `data`, an exception under `error` |
| Gemini.NoModelInUrl | src/Services/Gemini.php:35-36 | the URL is `base + "/models/:generateContent?key=" + key` whatever the model or options |
| Gemini.TranscribeAudio | src/Services/Gemini.php:65-139 | the shared three-step flow with this class's endpoint and headers |
| Gemini.TranscribeSendsToken | src/Services/Gemini.php:25-30 | every request of the flow carries the bearer token and the JSON `Accept` header |
| AIManager.Register | src/AIManager.php:15-17 | built in order; it completes exactly when every name builds; the keys are exactly the names, each holding the instance built from its own settings |
| AIManager.RegisterThrowsFirst | src/AIManager.php:15-17 | a failed construction escapes with the throwable of the first name that throws, after the earlier names were built |
| AIManager.New | src/AIManager.php:13-18 | the registry holds exactly `openai`, `huggingface` and `claude`, each built from `config['services'][name]` |
| AIManager.Service | src/AIManager.php:20-24 | a given name finds its entry or null; an array default is an illegal offset; whatever is found is a registered instance |
| AIManager.DefaultResolution | src/AIManager.php:22 | no name means the `ai.default` name; with no default configured nothing is found |
| AIManager.LookupByName | src/AIManager.php:23 | an unknown name gives null; a registered name gives the instance built for it |
| AIManager.SameInstance | src/AIManager.php:13-24 | lookups rebuild nothing: by name and through the default they give the same instance |
| AIManager.RepositoryManagerFails | src/AIManager.php:5-15 | with this repository's classes the constructor stops at `openai`: loading that class includes `OpenAI.php`, whose class cannot be declared, and the script ends |

## Left out

- I/O is not modelled: HTTP calls, `file_get_contents`, `fopen`, `filesize`, `mime_content_type` and JSON decoding. Their results are inputs: the transport function, the fetched bytes and the audio's MIME type and size.
- Guzzle option semantics beyond URL, headers and JSON body. For example, `generateBatchMessages` passes `requests` as a client option, so the model sends no body.
- Guzzle applies default headers only when the request lacks a header of that name, ignoring case. The model merges by exact key. No header in these calls differs from a default only in case.
- The batch lifecycle: the code keeps no batch state, so only URL construction is modelled.
- `ClaudeRequest`'s error path: `Exception` is not imported into the trait's namespace, so the model lets failures escape instead of wrapping them.
- `src/Traits/GeminiRequest.php`: plumbing around `config('')` and a streaming branch; it is not part of this model.
- Both `HuggingFace` classes: a constant request with no validation; they are not part of this model. `AIManager` builds one only through its builder parameter.
- `src/Contracts/AIService.php`, the service providers and the facade: signatures and Laravel wiring.
- Floats are opaque JSON values (the text PHP prints). Streaming responses are not modelled.
- `array_merge` renumbers integer keys. The model's arrays have string keys only.
- Laravel turns PHP warnings into exceptions. The model treats an undefined variable, property or key as null, as plain PHP does.
- `GeminiAIService::version()` and `stream()` set properties that no call reads, so they have no effect and are not modelled.
- `Claude.php`, `OpenAI.php` and `Gemini.php` cannot be loaded as written: their classes claim `implements AIService` but define 1, 7 and 2 of its 16 methods, and the interface `Gemini.php` names (`YourVendor\AIAssistant\Contracts\AIService`) does not exist, so declaring each class is a fatal error. The modules `Claude`, `OpenAI` and `Gemini` model the constructors and method bodies as if the declaration succeeded.
- Class names: `OpenAI.php` declares `OpenAIService`, `Claude.php` declares `ClaudeAIService`, and `Gemini.php` declares `YourVendor\...\GeminiService`. Each file's class is modelled as its own module.
- tests/Unit/ClaudeAIServiceTest.php:71-78 expects an exception from a failed fetch. The code catches it and returns `{error}`, and the model follows the code.
- Whether the OpenAI SDK offers a `classifications()` resource is outside the source. The model sends the call like any other.
- `AIManager` builds every service at construction and answers null for an unknown name. Lazy construction and an error for unknown names are not what the code does, so they are not modelled.
- `AIManager.Service`: instance identity is not modelled. The same builder result stands for the same object.
- `OpenAIClient.Invoke`: SDK errors that are `\Error` rather than `Exception` escape. Which errors the SDK raises is not modelled.

## Findings

| source | as written | input that shows it | evidently intended | confidence | as-written member | corrected member |
|---|---|---|---|---|---|---|
| src/Services/ClaudeAIService.php:17-23 | the key is stored in a `string` property before the `empty()` check | `api_key` null, as in tests/Unit/ClaudeAIServiceTest.php:34-42 | a missing key raises the InvalidArgumentException | not executed | ClaudeAIService.NullApiKeyIsTypeError | ClaudeAIService.NewCheckedAgrees |
| src/Services/ClaudeAIService.php:36-38 | `generateText` reads `$option`, so options never apply | options `{model: "m"}` | options override the configured model, token limit and stream flag | not executed | ClaudeAIService.GenerateTextIgnoresOptions | ClaudeAIService.GenerateTextWithOptions |
| src/Services/GeminiAIService.php:122 | `transcribeAudio` uses `$modelToUse`, which it never defines | `model("gemini-pro")` then `transcribeAudio(...)` | the third URL names the service's model | not executed | GeminiAIService.TranscribeIgnoresModel | GeminiAIService.TranscribeWithModelUsesModel |
| src/Services/OpenAIService.php:23 | the model is read from `ai.provider.openai.default_model` | a configuration with only `ai.providers.openai.default_model` | read `ai.providers.openai.default_model`, the key the class compares against | not executed | OpenAIService.NewNeedsSingularKey | OpenAIService.NewFromProvidersKeyBuilds |
| src/Services/GeminiAIService.php:37-41 | key and URL are stored in `string` properties before the `empty()` check | `api_key` and `base_url` null, as in tests/Unit/GeminiAIServiceTest.php:26-35 | missing settings raise the InvalidArgumentException | not executed | GeminiAIService.NullConfigIsTypeError | GeminiAIService.NewCheckedAgrees |
