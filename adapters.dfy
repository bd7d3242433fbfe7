/**
 * The two provider adapters: how a chat call is turned into the request of an
 * OpenAI-style chat completion or a Google generate-content call, and how the
 * answer is turned back into text.  The SDK calls themselves are the fields of
 * `Remote`; everything around them is modelled.
 */
module Adapters {
  import opened Wrappers
  import opened PyValues
  import opened Registry

  // ---------------------------------------------------------------- OpenAI

  /** One entry of the `messages` list: `{"role": role, "content": content}`. */
  datatype Turn = Turn(role: string, content: Value)

  /** The keyword arguments of `ChatCompletion.create`; `seed` is present only when given. */
  datatype CompletionParams = CompletionParams(
    model: Value, messages: seq<Turn>, temperature: Double, maxTokens: int, topP: Double, seed: Option<int>)

  /** `response.choices[0].message.content` of one choice; the API may send null content. */
  datatype Choice = Choice(content: Option<string>)
  datatype Completion = Completion(choices: seq<Choice>)

  // ---------------------------------------------------------------- Google

  /**
   * An attribute probed with `hasattr` and then read: absent (AttributeError,
   * so `hasattr` is false), raising some other exception while being read, or
   * present with a value.
   */
  datatype Attr<T> = Missing | Raises | Has(value: T)

  datatype Part = Part(text: Attr<string>)
  datatype Content = Content(parts: Attr<seq<Part>>)
  /** `content` is `Has(None)` when the candidate's content is None or otherwise false. */
  datatype Candidate = Candidate(finishReason: Attr<string>, content: Attr<Option<Content>>)
  datatype GenerateResponse = GenerateResponse(candidates: Attr<seq<Candidate>>, text: Attr<string>)

  /**
   * The remote services: `ChatCompletion.create(**params)` and
   * `GenerativeModel(model).generate_content(prompt)`; a failure carries the
   * message of the exception raised.
   */
  datatype Remote = Remote(
    createCompletion: CompletionParams -> Result<Completion, string>,
    generateContent: (Value, Value) -> Result<GenerateResponse, string>)

  const OpenAINotInitialized := "OpenAI client not initialized. Please check your API key."
  const GoogleNotInitialized := "Google AI client not initialized. Please check your API key."
  const OpenAIErrorPrefix := "OpenAI API error: "
  const GoogleErrorPrefix := "Google AI API error: "

  const SafetySentence := "I'm sorry, but I can't provide a response to that request due to safety guidelines."
  const RecitationSentence := "I'm sorry, but I can't provide a response to that request due to content policy restrictions."
  const NoResponseSentence := "Sorry, I couldn't generate a response. Please try again."
  const ProcessingErrorSentence := "Sorry, I encountered an error processing the response. Please try again."

  // ---------------------------------------------------------------- OpenAI adapter

  /** An optional system turn, then the user turn. */
  function Transcript(message: Value, systemPrompt: Value): seq<Turn> {
    (if Truthy(systemPrompt) then [Turn("system", systemPrompt)] else []) + [Turn("user", message)]
  }

  /** The parameters of the completion call, or the message of `int(seed)` raising. */
  function CompletionParamsOf(model: Value, message: Value, systemPrompt: Value, temperature: Double,
                              maxTokens: int, topP: Double, seed: Value, py: Builtins): Result<CompletionParams, string>
  {
    var base := CompletionParams(model, Transcript(message, systemPrompt), temperature, maxTokens, topP, None);
    if !Truthy(seed) then Success(base)
    else match IntOf(seed, py)
      case Success(n) => Success(base.(seed := Some(n)))
      case Failure(e) => Failure(e)
  }

  /** The `messages` list of `call_openai`, built by appending turns. */
  method BuildTranscript(message: Value, systemPrompt: Value) returns (messages: seq<Turn>)
    ensures messages == Transcript(message, systemPrompt)
  {
    messages := [];
    if Truthy(systemPrompt) {
      messages := messages + [Turn("system", systemPrompt)];
    }
    messages := messages + [Turn("user", message)];
  }

  /**
   * The body of `call_openai` inside its `try`: the transcript is built by two
   * appends and `seed` is added to the params only when it is truthy.
   */
  method BuildCompletionParams(model: Value, message: Value, systemPrompt: Value, temperature: Double,
                               maxTokens: int, topP: Double, seed: Value, py: Builtins)
    returns (r: Result<CompletionParams, string>)
    ensures r == CompletionParamsOf(model, message, systemPrompt, temperature, maxTokens, topP, seed, py)
  {
    var messages := BuildTranscript(message, systemPrompt);
    var params := CompletionParams(model, messages, temperature, maxTokens, topP, None);
    r := Success(params);
    if Truthy(seed) {
      var n := IntOf(seed, py);
      if n.Failure? {
        r := Failure(n.error);
      } else {
        r := Success(params.(seed := Some(n.value)));
      }
    }
  }

  /**
   * The transcript holds the system turn exactly when the system prompt is
   * truthy, and always ends with the user turn.
   */
  lemma TranscriptShape(message: Value, systemPrompt: Value)
    ensures !Truthy(systemPrompt) ==> Transcript(message, systemPrompt) == [Turn("user", message)]
    ensures Truthy(systemPrompt) ==>
              Transcript(message, systemPrompt) == [Turn("system", systemPrompt), Turn("user", message)]
    ensures var t := Transcript(message, systemPrompt); |t| > 0 && t[|t| - 1] == Turn("user", message)
  {
  }

  /**
   * `seed` is in the params iff it is truthy (0, None and '' are dropped), and
   * it is then `int(seed)`; building fails only when that conversion raises.
   * The other parameters are passed through unchanged.
   */
  lemma SeedRule(model: Value, message: Value, systemPrompt: Value, temperature: Double,
                 maxTokens: int, topP: Double, seed: Value, py: Builtins)
    ensures var r := CompletionParamsOf(model, message, systemPrompt, temperature, maxTokens, topP, seed, py);
            && (r.Failure? <==> Truthy(seed) && IntOf(seed, py).Failure?)
            && (r.Success? ==> (r.value.seed.Some? <==> Truthy(seed)))
            && (r.Success? && Truthy(seed) ==> r.value.seed == Some(IntOf(seed, py).value))
            && (r.Success? ==> r.value.model == model && r.value.temperature == temperature
                               && r.value.maxTokens == maxTokens && r.value.topP == topP
                               && r.value.messages == Transcript(message, systemPrompt))
  {
  }

  /**
   * `call_openai`: the not-initialized check sits outside the `try`, so its
   * message is not prefixed; every fault inside the `try` (the seed
   * conversion, the remote call, an empty `choices` list) is re-raised with
   * the `OpenAI API error: ` prefix.
   */
  function CallOpenAI(clients: seq<Provider>, model: Value, message: Value, systemPrompt: Value,
                      temperature: Double, maxTokens: int, topP: Double, seed: Value,
                      py: Builtins, remote: Remote): (r: Result<Value, string>)
    ensures OpenAI !in clients ==> r == Failure(OpenAINotInitialized)
    ensures OpenAI in clients && r.Failure? ==> StartsWith(r.error, OpenAIErrorPrefix)
    ensures r.Success? ==> r.value.Null? || r.value.Str?
  {
    if OpenAI !in clients then Failure(OpenAINotInitialized)
    else match CompletionParamsOf(model, message, systemPrompt, temperature, maxTokens, topP, seed, py)
      case Failure(e) => Failure(OpenAIErrorPrefix + e)
      case Success(params) =>
        match remote.createCompletion(params)
        case Failure(e) => Failure(OpenAIErrorPrefix + e)
        case Success(completion) =>
          if |completion.choices| == 0 then Failure(OpenAIErrorPrefix + "list index out of range")
          else match completion.choices[0].content
            case Some(text) => Success(Str(text))
            case None => Success(Null)
  }

  /**
   * With a client, the remote receives exactly the params record built from
   * the request; its first choice's content is the result (None when the
   * message has no content); every failure is the underlying message behind
   * the `OpenAI API error: ` prefix.
   */
  lemma OpenAICallOutcome(clients: seq<Provider>, model: Value, message: Value, systemPrompt: Value,
                          temperature: Double, maxTokens: int, topP: Double, seed: Value,
                          py: Builtins, remote: Remote)
    requires OpenAI in clients
    ensures var built := CompletionParamsOf(model, message, systemPrompt, temperature, maxTokens, topP, seed, py);
            var r := CallOpenAI(clients, model, message, systemPrompt, temperature, maxTokens, topP, seed, py, remote);
            && (built.Failure? ==> r == Failure(OpenAIErrorPrefix + built.error))
            && (built.Success? && remote.createCompletion(built.value).Failure? ==>
                  r == Failure(OpenAIErrorPrefix + remote.createCompletion(built.value).error))
            && (built.Success? && remote.createCompletion(built.value).Success? ==>
                  var choices := remote.createCompletion(built.value).value.choices;
                  && (choices == [] ==> r == Failure(OpenAIErrorPrefix + "list index out of range"))
                  && (choices != [] && choices[0].content.Some? ==> r == Success(Str(choices[0].content.value)))
                  && (choices != [] && choices[0].content.None? ==> r == Success(Null)))
  {
  }

  /**
   * What reaches the remote for a request with a user message: one system
   * turn at most, exactly one user turn, last, carrying the message.
   */
  lemma OutboundTranscriptHasOneUserTurn(message: Value, systemPrompt: Value)
    ensures var t := Transcript(message, systemPrompt);
            && (forall k :: 0 <= k < |t| && t[k].role == "user" ==> k == |t| - 1)
            && t[|t| - 1] == Turn("user", message)
            && (forall k :: 0 <= k < |t| - 1 ==> t[k] == Turn("system", systemPrompt))
  {
  }

  // ---------------------------------------------------------------- Google adapter

  /** The single prompt string: the message alone, or behind a `System:` header. */
  function GooglePrompt(message: Value, systemPrompt: Value, py: Builtins): Value {
    if Truthy(systemPrompt) then Str("System: " + PyStr(systemPrompt, py) + "\n\nUser: " + PyStr(message, py))
    else message
  }

  /** The prompt carries the message verbatim, behind the system header when there is one. */
  lemma GooglePromptShape(message: Value, systemPrompt: Value, py: Builtins)
    ensures !Truthy(systemPrompt) ==> GooglePrompt(message, systemPrompt, py) == message
    ensures Truthy(systemPrompt) && message.Str? && systemPrompt.Str? ==>
              GooglePrompt(message, systemPrompt, py) == Str("System: " + systemPrompt.s + "\n\nUser: " + message.s)
  {
  }

  /** Step one of the extraction chain: a block reported by the first candidate. */
  function BlockSentence(response: GenerateResponse): Attr<string> {
    match response.candidates
    case Raises => Raises
    case Missing => Missing
    case Has(candidates) =>
      if |candidates| == 0 then Missing
      else match candidates[0].finishReason
        case Raises => Raises
        case Missing => Missing
        case Has(reason) =>
          if reason == "SAFETY" then Has(SafetySentence)
          else if reason == "RECITATION" then Has(RecitationSentence)
          else Missing
  }

  /** `Has(t)` for a non-empty text, `Raises` for a fault while reading, `Missing` otherwise. */
  function NonEmpty(a: Attr<string>): (r: Attr<string>)
    ensures r.Has? ==> a == r && r.value != ""
  {
    match a
    case Raises => Raises
    case Has(t) => if t != "" then Has(t) else Missing
    case Missing => Missing
  }

  /** Step three: the text of the first part of the first candidate's content. */
  function FirstPartText(response: GenerateResponse): Attr<string> {
    match response.candidates
    case Raises => Raises
    case Missing => Missing
    case Has(candidates) =>
      if |candidates| == 0 then Missing
      else match candidates[0].content
        case Raises => Raises
        case Missing => Missing
        case Has(None) => Missing
        case Has(Some(content)) =>
          match content.parts
          case Raises => Raises
          case Missing => Missing
          case Has(parts) => if |parts| == 0 then Missing else NonEmpty(parts[0].text)
  }

  /** The part text that step three can return is a non-empty text the response holds. */
  lemma FirstPartTextIsPartText(response: GenerateResponse)
    requires FirstPartText(response).Has?
    ensures FirstPartText(response).value != ""
    ensures response.candidates.Has? && |response.candidates.value| > 0
    ensures var c := response.candidates.value[0];
            c.content.Has? && c.content.value.Some? && c.content.value.value.parts.Has?
            && |c.content.value.value.parts.value| > 0
            && c.content.value.value.parts.value[0].text == Has(FirstPartText(response).value)
  {
  }

  /**
   * The strict fallback chain of `call_google`: a SAFETY or RECITATION block,
   * then the direct text, then the first part's text, then a generic sentence;
   * a fault on the way gives the processing-error sentence instead of raising.
   * The result is never empty, and is either one of the fixed sentences or a
   * text taken from the response.
   */
  function ExtractText(response: GenerateResponse): (text: string)
    ensures text != ""
    ensures || text in {SafetySentence, RecitationSentence, NoResponseSentence, ProcessingErrorSentence}
            || response.text == Has(text)
            || FirstPartText(response) == Has(text)
  {
    match BlockSentence(response)
    case Raises => ProcessingErrorSentence
    case Has(sentence) => sentence
    case Missing =>
      match NonEmpty(response.text)
      case Raises => ProcessingErrorSentence
      case Has(t) => t
      case Missing =>
        match FirstPartText(response)
        case Raises => ProcessingErrorSentence
        case Has(t) => t
        case Missing => NoResponseSentence
  }

  /** A SAFETY or RECITATION finish reason wins even when the response has text. */
  lemma BlockWinsOverText(response: GenerateResponse)
    requires response.candidates.Has? && |response.candidates.value| > 0
    requires response.candidates.value[0].finishReason in {Has("SAFETY"), Has("RECITATION")}
    ensures response.candidates.value[0].finishReason == Has("SAFETY") ==> ExtractText(response) == SafetySentence
    ensures response.candidates.value[0].finishReason == Has("RECITATION") ==> ExtractText(response) == RecitationSentence
  {
  }

  /** Without a block, a non-empty direct text is returned verbatim and no fallback is consulted. */
  lemma DirectTextVerbatim(response: GenerateResponse, t: string)
    requires BlockSentence(response) == Missing
    requires response.text == Has(t) && t != ""
    ensures ExtractText(response) == t
  {
  }

  /** Without a block or a direct text, the first part's text; failing that, the generic sentence. */
  lemma FallbackOrder(response: GenerateResponse)
    requires BlockSentence(response) == Missing
    requires NonEmpty(response.text) == Missing
    ensures FirstPartText(response).Has? ==> ExtractText(response) == FirstPartText(response).value
    ensures FirstPartText(response).Missing? ==> ExtractText(response) == NoResponseSentence
  {
  }

  /** A fault met at any step of the chain becomes the processing-error sentence. */
  lemma FaultBecomesSentence(response: GenerateResponse)
    requires || BlockSentence(response).Raises?
             || (BlockSentence(response).Missing? && response.text.Raises?)
             || (BlockSentence(response).Missing? && NonEmpty(response.text).Missing?
                 && FirstPartText(response).Raises?)
    ensures ExtractText(response) == ProcessingErrorSentence
  {
  }

  /**
   * `call_google`: the not-initialized check is outside the `try`; a failure
   * of the remote call is re-raised with the `Google AI API error: ` prefix;
   * a response always yields text, since extraction never raises.
   */
  function CallGoogle(clients: seq<Provider>, model: Value, message: Value, systemPrompt: Value,
                      temperature: Double, maxTokens: int, topP: Double, seed: Value,
                      py: Builtins, remote: Remote): (r: Result<Value, string>)
    ensures Google !in clients ==> r == Failure(GoogleNotInitialized)
    ensures Google in clients && r.Failure? ==> StartsWith(r.error, GoogleErrorPrefix)
    ensures r.Success? ==> r.value.Str? && r.value.s != ""
  {
    if Google !in clients then Failure(GoogleNotInitialized)
    else match remote.generateContent(model, GooglePrompt(message, systemPrompt, py))
      case Failure(e) => Failure(GoogleErrorPrefix + e)
      case Success(response) => Success(Str(ExtractText(response)))
  }

  /**
   * With a client, the remote receives the model and the built prompt; a
   * response gives the extracted text, and a remote failure is its message
   * behind the `Google AI API error: ` prefix.
   */
  lemma GoogleCallOutcome(clients: seq<Provider>, model: Value, message: Value, systemPrompt: Value,
                          temperature: Double, maxTokens: int, topP: Double, seed: Value,
                          py: Builtins, remote: Remote)
    requires Google in clients
    ensures var answer := remote.generateContent(model, GooglePrompt(message, systemPrompt, py));
            var r := CallGoogle(clients, model, message, systemPrompt, temperature, maxTokens, topP, seed, py, remote);
            && (answer.Success? ==> r == Success(Str(ExtractText(answer.value))))
            && (answer.Failure? ==> r == Failure(GoogleErrorPrefix + answer.error))
  {
  }

  /** Temperature, max_tokens, top_p and seed never reach the Google call. */
  lemma GoogleIgnoresSampling(clients: seq<Provider>, model: Value, message: Value, systemPrompt: Value,
                              t1: Double, m1: int, p1: Double, s1: Value,
                              t2: Double, m2: int, p2: Double, s2: Value, py: Builtins, remote: Remote)
    ensures CallGoogle(clients, model, message, systemPrompt, t1, m1, p1, s1, py, remote)
         == CallGoogle(clients, model, message, systemPrompt, t2, m2, p2, s2, py, remote)
  {
  }
}
