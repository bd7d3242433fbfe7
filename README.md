# LLM Playground gateway and front end, modelled in Dafny

The system is a chat playground in two halves:

- **The back end.** A small HTTP gateway in two near-identical deployments: the Flask app `app.py` and the serverless `api/chat.py`. A third file, `api/health.py`, is a stand-alone serverless health check.
- **The front end.** The browser class `LLMPlayground` in `script.js`.

This project models the logic of both halves and proves what that code promises.

- **Back end (`registry.dfy`, `adapters.dfy`, `dispatcher.dfy`).**
  - Start-up scrubs the proxy variables from the process environment, then registers a client for each provider whose API key is set and is not the placeholder value.
  - `POST /api/chat` defaults and converts the request fields, then checks the message and the provider, and routes the request to the OpenAI or the Google adapter.
  - The handler answers with an envelope that echoes the request's own parameters. Any raised exception becomes a 500.
  - The OpenAI adapter builds the transcript and the call parameters. The seed is included only when it is truthy.
  - The Google adapter builds one prompt string. It then reads the response through a strict fallback chain: a SAFETY or RECITATION block, the direct text, the first part's text, a generic sentence. A fault while reading becomes a sentence and is never raised.
  - `app.py` and `api/chat.py` share one model. They differ only in the health payload: a flag per provider versus the list of registered names. Both payloads and the list that `api/health.py` computes are modelled.
- **Shared values.**
  - `pyvalues.dfy` holds JSON values as Python sees them, with Python truthiness, `str()`, and the type dispatch of `float()` and `int()`.
  - `catalog.dfy` holds the fixed model catalog. Both the back end and the front end carry the same catalog.
- **Front end (`jstext.dfy`, `playground.dfy`).**
  - Messages are JavaScript strings, modelled as sequences of UTF-16 code units, so `length`, `substring` and `trim` count code units.
  - The class keeps the model parameters, the conversation, the typing flag, the chat id, the input box and the two `localStorage` entries. Its handlers update them in place.
  - The handlers cover the model-option fallback, loading, choosing and resetting the settings, sending with its gating, saving the history (upsert by id, then a cap of 50), starting a new chat and clearing the conversation.
  - The share text and the character-counter colour are pure functions.

The remote SDK calls are parameters, a `Remote` pair of functions, each returning a result or an error message. "No adapter is called" is stated as: the reply is the same for every `Remote`. Python builtins the model does not define are parameters in the same way, in `Builtins`: parsing numeric strings, int/float conversion, and `str()` of floats and containers. In the front end, the outcome of the backend call and the clock-based chat id are method inputs.

Where the code and its written description disagree, the model follows the code:

- Every provider gets the same default model, `gpt-3.5-turbo`.
- Finish reasons are compared with the upper-case strings `'SAFETY'` and `'RECITATION'`.
- `int(seed)` runs inside the adapter's `try`. A seed that does not convert therefore gives `OpenAI API error: …` and a 500.
- The three numeric conversions run before the message check. A body with a bad `temperature` and no message therefore gets a 500, not a 400.

## Model

| member | source | states |
|---|---|---|
| Catalog.Models | app.py:196-213 | The catalog has exactly the providers `openai` and `google`, each with a non-empty list of models. |
| Catalog.OptionsFor | script.js:197-222 | A known provider gets its catalog; any other provider gets no models at all. |
| Catalog.CatalogsAreWellFormed | app.py:199-212 | No model appears twice in a provider's list, the two lists share no model, and the default `gpt-3.5-turbo` is an OpenAI model. |
| PyValues.NatDigits | script.js:328 | The decimal text of a count is non-empty, all digits, reads back as the count, and starts with `0` only for zero itself. |
| PyValues.ConversionTypeRules | app.py:67-69 | For inputs that are neither strings nor numbers, `float()` and `int()` do not depend on the builtins; exactly None, lists and dicts are rejected, with the builtin's TypeError naming the type; `int()` of a boolean equals `int()` of 1 or 0; `float()` returns a float unchanged. |
| Registry.Scrubbed | app.py:26-30 | A variable survives the scrub iff it was set and is not one of the six proxy names; surviving variables keep their values. |
| Registry.DictInsert | app.py:37-46 | Inserting a key into the `clients` dict keeps the old keys, adds the new one, and changes nothing when the key is already there. |
| Registry.Names | api/chat.py:207-210 | `list(clients.keys())` lists each registered provider's name in insertion order. |
| Registry.RegisterAll | app.py:32-49 | Definition: the two conditional insertions into the `clients` dict, first OpenAI then Google, each when its key is configured. |
| Registry.Registrations | app.py:22-51 | Definition: the providers registered from an empty dict, OpenAI before Google, each present iff its key is configured. |
| Registry.ScrubKeepsConfiguration | app.py:27-44 | The scrub never changes whether a provider's key counts as configured. |
| Registry.RegisterAllFromEmpty | app.py:32-51 | Starting from the empty dict, the two conditional insertions give exactly the registration list computed from the environment. |
| Registry.RegistrationsShape | app.py:33-49 | A provider is registered iff its key is present, non-empty and not its placeholder; no other key appears, none twice, at most two, and OpenAI precedes Google. |
| Registry.Process.InitializeClients | app.py:22-51 | The loop removes exactly the proxy variables from the environment and leaves everything else as it was; the dict then holds exactly the configured providers, in order. |
| Registry.HealthFlags | app.py:185-194 | Definition: the app.py health payload, status `healthy` and one flag per provider saying whether it is registered. |
| Registry.HealthList | api/chat.py:204-210 | Definition: the api/chat.py health payload, status `healthy` and the registered names in insertion order. |
| Registry.HealthPayloadsAgree | app.py:185-194 | Both health payloads say `healthy`, and the flag dict of app.py reports a provider iff the list of api/chat.py names it. |
| Registry.HealthFromEnv | api/health.py:14-28 | The list built by the two appends is exactly the names of the providers configured in the environment, in order, and the status is `healthy`. |
| Registry.HealthDeploymentsAgree | api/health.py:17-23 | The serverless check reports the same providers as a back end that scrubbed the same environment at start-up. |
| Adapters.Transcript | app.py:104-111 | Definition: a system turn with the system prompt when it is truthy, then the user turn with the message. |
| Adapters.CompletionParamsOf | app.py:113-124 | Definition: the keyword arguments of the completion call, with `seed` as `int(seed)` only when the seed is truthy, or the message `int(seed)` raised. |
| Adapters.BuildTranscript | app.py:104-111 | The appended `messages` list is the transcript: an optional system turn, then the user turn. |
| Adapters.BuildCompletionParams | app.py:103-124 | The params record built step by step is the specified one, including the conditional seed and the failure of `int(seed)`. |
| Adapters.TranscriptShape | api/chat.py:56-63 | With a false system prompt the transcript is `[user]`; otherwise it is `[system, user]`; the user turn always comes last. |
| Adapters.SeedRule | app.py:113-124 | `seed` is in the params iff it is truthy, and is then `int(seed)`; building fails iff that conversion raises; the other fields pass through unchanged. |
| Adapters.CallOpenAI | app.py:98-132 | Without a client the error is the bare not-initialized message; with one, every failure carries the `OpenAI API error: ` prefix and a success is a string or None. |
| Adapters.OpenAICallOutcome | app.py:103-132 | With a client: a failed `int(seed)` or remote call gives the prefixed error message; an empty choice list gives the prefixed `list index out of range`; otherwise the reply is the first choice's content, a string, or None when the content is absent. |
| Adapters.OutboundTranscriptHasOneUserTurn | app.py:104-111 | The outgoing transcript holds the user's message as its last turn and as its only user turn; any earlier turn is the system prompt. |
| Adapters.GooglePrompt | app.py:143-146 | Definition: the message itself, or the f-string `System: {sp}\n\nUser: {message}` when the system prompt is truthy. |
| Adapters.BlockSentence | app.py:153-160 | Definition: step one of the chain, the safety or recitation sentence for the first candidate's finish reason, nothing for any other reason or no candidate, or a fault. |
| Adapters.FirstPartText | app.py:166-173 | Definition: step three of the chain, the non-empty text of the first part of the first candidate's content, nothing when any link is missing or empty, or a fault. |
| Adapters.GooglePromptShape | app.py:144-149 | The prompt is the message verbatim when the system prompt is false, else `System: {sp}\n\nUser: {message}`. |
| Adapters.FirstPartTextIsPartText | app.py:166-173 | A text found by the third step is non-empty and is the text of the first part of the first candidate's content. |
| Adapters.ExtractText | app.py:152-179 | Extraction always yields a non-empty text: one of the four fixed sentences, the response's direct text, or its first part's text. |
| Adapters.BlockWinsOverText | app.py:153-160 | A first-candidate finish reason of SAFETY or RECITATION gives its sentence even when the response has text. |
| Adapters.DirectTextVerbatim | app.py:162-164 | Without a block, a non-empty direct text is returned verbatim. |
| Adapters.FallbackOrder | app.py:166-175 | Without a block or a direct text, the first part's text is returned; failing that, the "couldn't generate" sentence. |
| Adapters.FaultBecomesSentence | api/chat.py:105-132 | A fault raised at any step of the chain gives the "error processing" sentence instead of an exception. |
| Adapters.CallGoogle | app.py:134-183 | Without a client the error is the bare not-initialized message; a remote failure carries the `Google AI API error: ` prefix; a success is always a non-empty text. |
| Adapters.GoogleCallOutcome | app.py:139-183 | With a client: a successful `generate_content` gives the text extracted from that response; a failed one gives its message behind the `Google AI API error: ` prefix. |
| Adapters.GoogleIgnoresSampling | app.py:134-149 | Temperature, max_tokens, top_p and seed have no influence on the Google call or its outcome. |
| Dispatcher.ParseRequest | app.py:62-70 | Definition: each field read with its own default, then `float`, `int` and `float` of temperature, max_tokens and top_p in that order, the first failure giving its message. |
| Dispatcher.Chat | app.py:56-96 | The status is 200, 400 or 500; 200 exactly for the success envelope, which echoes the request's provider, model and converted sampling values; every 500 carries `Internal server error: `. |
| Dispatcher.DefaultsAreIndependent | app.py:62-70 | Each parsed field depends only on its own key, so one field's absence or value never changes another. |
| Dispatcher.MessageOnlyGetsDefaults | api/chat.py:148-155 | A body with only a message gets provider `openai`, model `gpt-3.5-turbo`, system prompt `''`, 0.7, 1000, 1.0 and no seed. |
| Dispatcher.ConversionsRunFirst | app.py:67-73 | A sampling field that fails to convert gives a 500, whatever the message and the provider. |
| Dispatcher.MessageCheckedBeforeProvider | app.py:72-81 | A missing or false message gives 400 `Message is required` for every provider, and the reply does not depend on the remote. |
| Dispatcher.UnknownProviderRejected | api/chat.py:162-167 | An unknown provider gives 400 `Unsupported provider: X`, and the reply does not depend on the remote. |
| Dispatcher.RoutedToAdapter | app.py:75-96 | A routed request answers with the adapter's outcome: its text in the 200 envelope, or its error behind `Internal server error: `. |
| Dispatcher.NotInitializedIsNotPrefixed | app.py:94-101 | A missing OpenAI client gives a 500 whose message is the not-initialized text behind the internal-error prefix only, with no remote call. |
| Dispatcher.GoogleNotInitializedIsNotPrefixed | api/chat.py:87-90 | The same holds for a missing Google client. |
| Dispatcher.GoogleSuccessHasText | app.py:150-179 | A 200 from the Google route always carries a non-empty text. |
| JsText.Trim | script.js:358 | Definition: `String.prototype.trim`, leading then trailing white space and line terminators removed. |
| JsText.TrimSpec | script.js:340 | `trim()` yields a contiguous piece with no white space at either end and cuts off only white space; it is empty iff the input is all white space. |
| Playground.ModelAfterSwitch | script.js:218-234 | After the fallback, a non-empty catalog always contains the model; a listed model is kept, an unlisted one becomes the first entry, and an empty catalog leaves the model unchanged. |
| Playground.ModelAfterSwitchIdempotent | script.js:224-233 | Applying the fallback a second time changes nothing. |
| Playground.Loaded | script.js:661-672 | Definition: the saved parameters when there are any, else the current ones, with the model fallback for their provider applied. |
| Playground.LoadedIdempotent | script.js:661-672 | Loading the settings twice, as start-up does (constructor and `DOMContentLoaded`), gives the same parameters as loading once; the result's model is in its provider's catalog or that catalog is empty. |
| Playground.DefaultModelIsOffered | script.js:286-296 | The default model is in the default provider's catalog, so the model fallback keeps it. |
| Playground.SendDisabled | script.js:339-341 | Definition: the trimmed input is empty or a reply is pending. |
| Playground.SendDisabledSpec | script.js:339-341 | The send button is disabled iff a reply is pending or the input is all white space. |
| Playground.CountColorOf | script.js:329-336 | Definition: red above 2000, orange above 1500, grey otherwise. |
| Playground.AssistantText | script.js:441-462 | Definition: the text of a text response; for a null response or a thrown error, `Sorry, I encountered an error: ` and the error's message and `. Please check your API keys and try again.` |
| Playground.CountColorThresholds | script.js:326-337 | The counter is red above 2000, orange from 1501 to 2000, grey otherwise, and a longer input is never shown in a calmer colour. |
| Playground.ShareText | script.js:594-602 | Definition: nothing for an empty conversation, else the `SENDER: content` lines joined by a blank line. |
| Playground.ShareTextGrows | script.js:594-602 | There is nothing to share with no messages; a single message shares as one `SENDER: content` line; each further message adds a blank line and its own line at the end. |
| Playground.UserLabelIsUpperCase | script.js:601 | User messages are shown as `USER`. |
| Playground.AssistantLabelIsUpperCase | script.js:601 | Assistant messages are shown as `ASSISTANT`. |
| Playground.ChatTitle | script.js:624 | The title is the first 50 code units of the first message followed by `...`, even when the message is shorter. |
| Playground.FirstIndex | script.js:631 | The index found holds the id and no earlier entry does; -1 means no entry holds it. |
| Playground.FindChat | script.js:631 | The search loop returns exactly the first index holding the id, or -1. |
| Playground.Upsert | script.js:630-640 | Definition: the record replaces the first entry with its id, or goes to the front when there is none, and the list is then cut to 50 entries. |
| Playground.UpsertKeepsOthersInOrder | script.js:630-641 | The saved list has at most 50 entries; the entries with other ids keep their relative order and form a prefix of the old ones, all of them when the old list was shorter than 50. |
| Playground.UpsertPlacesChat | script.js:631-637 | A chat whose id is first found among the 50 kept entries is replaced in place, every other entry unchanged; a new id goes to the front ahead of the old list, cut to 50; a chat whose id is first found beyond the 50th entry (a stored list longer than this code writes) is lost, and the result is the first 50 entries. |
| Playground.UpsertBounded | script.js:639-640 | The list never exceeds 50, and a list within the cap never shrinks. |
| Playground.LLMPlayground.constructor | script.js:2-22 | A new page has no messages, no chat id, shows the welcome screen, and holds the loaded settings. |
| Playground.LLMPlayground.LoadSettings | script.js:661-672 | The saved parameters replace the current ones when present, then the model fallback runs; nothing else changes. |
| Playground.LLMPlayground.UpdateModelOptions | script.js:191-234 | Only `modelParams.model` changes, and it becomes the fallback model for the provider. |
| Playground.LLMPlayground.UpdateModel | script.js:237-241 | The picked model replaces the current one without any catalog check, the new parameters are saved, and nothing else changes. |
| Playground.LLMPlayground.ResetSettings | script.js:286-301 | When confirmed, the parameters become exactly the defaults, since the default model survives the fallback, and are saved; when not, they are kept; the conversation is untouched either way. |
| Playground.LLMPlayground.SwitchProvider | script.js:179-189 | The provider is set, the model fallback runs, and the new parameters are saved; the conversation is untouched. |
| Playground.LLMPlayground.AddMessage | script.js:402-430 | Exactly one message is appended; nothing else changes. |
| Playground.LLMPlayground.GenerateAIResponse | script.js:441-462 | Exactly one assistant message is appended: the text of a text response; for a null response, the error text carrying the TypeError `addMessage` raises; for a thrown error, the error text with its message. `isTyping` is false afterwards in every outcome. |
| Playground.LLMPlayground.SaveChatHistory | script.js:620-643 | With messages and a chat id, the stored history becomes the upsert of the current chat; otherwise it is left as it was. |
| Playground.LLMPlayground.HandleSendMessage | script.js:358-400 | When sending is disabled, nothing changes. Otherwise the trimmed input becomes one user message, followed by the one assistant message `GenerateAIResponse` gives for the reply; the input is cleared, the chat view is shown with a chat id, and the chat is saved. |
| Playground.LLMPlayground.Send | script.js:367-388 | Past the guard: the chat view is shown with a chat id, the message and the reply's assistant message are appended, the input is cleared and the chat saved. |
| Playground.LLMPlayground.StartNewChat | script.js:571-582 | The conversation is emptied, the chat id cleared, the input cleared and the welcome screen shown. |
| Playground.LLMPlayground.ClearConversation | script.js:584-592 | When confirmed, this resets the conversation and the chat id and shows the welcome screen. When not confirmed, nothing changes. The input is never touched. |

## Left out

- HTTP plumbing is not modelled: Flask routing, CORS headers, `request.get_json` and `jsonify`, and the header and body writing of `api/health.py`. A body that fails to parse is an input to `Chat`.
- `api/models.py` and `get_models` only return the constant catalog, which `Catalog.Models` states. `api/simple.py` returns a constant response.
- The SDKs are oracles: `ChatCompletion.create`, `genai.configure`, `GenerativeModel` and `generate_content`. The model does not state which model name the Google SDK accepts.
- Floating-point values are kept as opaque 64-bit patterns. Float parsing, int-to-float rounding, float truncation and `str()` of floats, lists and dicts are oracles.
- Logging, `load_dotenv`, `start_backend.py` and `test_openai.py` are not modelled.
- The JSON key order of the envelope is not modelled. It differs between `app.py` and `api/chat.py`, but a decoded JSON object does not depend on it.
- Dispatcher.Chat: the body is a decoded JSON value or the message `get_json()` raised. Flask's own answers to a missing or malformed body are not modelled.
- DOM and browser APIs are not modelled. This covers element updates, styles, focus, scrolling, the typing indicator, `formatMessage`'s regular expressions, speech input, attachments, `navigator.share`, the clipboard and `alert`. `confirm` is a boolean input.
- `callBackendAPI` and `fetch` are not modelled: the outcome of the backend call is an input to `GenerateAIResponse` and `HandleSendMessage`: a text response, a null response, or an error message. The message of the TypeError a null response raises is an input too, since its wording is the browser's.
- Async ordering is not modelled: each handler is one sequential step, so `isTyping` is observed only between handlers.
- The mock response generator, `Math.random` seeds and message ids, and `Date.now` are not modelled. The chat id from the clock is an input. Timestamps are dropped from messages and saved chats.
- Playground.LLMPlayground.LoadSettings: the saved parameters are a complete record. The partial merge `{...modelParams, ...saved}` of an older, incomplete record is not modelled, nor is JSON decoding of `localStorage`.
- Playground.ModelParams: the model, provider, system prompt, API key and chat id are Dafny strings. They are never measured or cut, so unpaired surrogates in them are not represented.
- The setters `updateTemperature`, `updateMaxTokens`, `updateTopP`, `updateSeed`, `updateSystemPrompt` and `updateApiKey` are not modelled. Each stores one widget value in `modelParams`, through the browser's `parseFloat` or `parseInt` for the numeric ones, and saves the settings.
- `generateRandomSeed` is not modelled. It draws a seed from `Math.random`, writes it to the seed widget and to `modelParams.seed`, and saves the settings.
- `updateModelDisplay` is not modelled. It writes display text into the page and does not touch `modelParams`.
- `loadChatHistory`'s copy into `chatHistory` and `renderMessages` are not modelled: no modelled operation reads them.
- Playground.CatalogFor: the lookup `modelOptions[provider]` would also find inherited object properties such as `constructor`. Only the two catalog keys are modelled.
- Playground.CharCountText: the counter text is defined, but no property is stated about it beyond its colour thresholds.
