/**
 * The `POST /api/chat` handler: defaulting and conversion of the request
 * fields, the message and provider checks, routing to an adapter, and the
 * success and error envelopes.  The handler's outer `try` turns every raised
 * exception into a 500 envelope, so the handler always answers.
 */
module Dispatcher {
  import opened Wrappers
  import opened PyValues
  import opened Registry
  import opened Adapters

  /** The request after `data.get(...)` with defaults and the numeric conversions. */
  datatype ChatRequest = ChatRequest(
    provider: Value, model: Value, message: Value, systemPrompt: Value,
    temperature: Double, maxTokens: int, topP: Double, seed: Value)

  /** The `usage` object: an echo of the three sampling parameters as converted. */
  datatype Usage = Usage(temperature: Double, maxTokens: int, topP: Double)

  datatype Envelope =
    | ChatResponse(response: Value, provider: Value, model: Value, usage: Usage)
    | ErrorBody(error: string)

  datatype Reply = Reply(status: int, body: Envelope)

  const DefaultProvider := Str("openai")
  const DefaultModel := Str("gpt-3.5-turbo")
  const DefaultMessage := Str("")
  const DefaultSystemPrompt := Str("")
  const DefaultTemperature := Float(PointSeven)
  const DefaultMaxTokens := Int(1000)
  const DefaultTopP := Float(OnePointZero)

  const MessageRequired := "Message is required"
  const UnsupportedPrefix := "Unsupported provider: "
  const InternalPrefix := "Internal server error: "

  /** `data.get(key, default)`: a key present with value null gives null, not the default. */
  function Get(data: map<string, Value>, key: string, default: Value): Value {
    if key in data then data[key] else default
  }

  /** The extraction step of the handler: each field is defaulted on its own, then the three conversions run in order. */
  function ParseRequest(data: map<string, Value>, py: Builtins): Result<ChatRequest, string> {
    match FloatOf(Get(data, "temperature", DefaultTemperature), py)
    case Failure(e) => Failure(e)
    case Success(temperature) =>
      match IntOf(Get(data, "max_tokens", DefaultMaxTokens), py)
      case Failure(e) => Failure(e)
      case Success(maxTokens) =>
        match FloatOf(Get(data, "top_p", DefaultTopP), py)
        case Failure(e) => Failure(e)
        case Success(topP) =>
          Success(ChatRequest(
            Get(data, "provider", DefaultProvider), Get(data, "model", DefaultModel),
            Get(data, "message", DefaultMessage), Get(data, "system_prompt", DefaultSystemPrompt),
            temperature, maxTokens, topP, Get(data, "seed", Null)))
  }

  /** The 200 envelope for a reply text: the request's own parameters, never the provider's. */
  function Echo(req: ChatRequest, text: Value): Envelope {
    ChatResponse(text, req.provider, req.model, Usage(req.temperature, req.maxTokens, req.topP))
  }

  /** The `chat` handler on the body `get_json()` produced (or the message it raised with). */
  function Chat(body: Result<Value, string>, clients: seq<Provider>, py: Builtins, remote: Remote): (reply: Reply)
    ensures reply.status in {200, 400, 500}
    ensures reply.status == 200 <==> reply.body.ChatResponse?
    ensures reply.status == 500 ==> StartsWith(reply.body.error, InternalPrefix)
    ensures reply.status == 200 ==>
              body.Success? && body.value.Dict? && ParseRequest(body.value.entries, py).Success?
              && var req := ParseRequest(body.value.entries, py).value;
                 reply.body.provider == req.provider && reply.body.model == req.model
                 && reply.body.usage == Usage(req.temperature, req.maxTokens, req.topP)
  {
    match body
    case Failure(e) => Reply(500, ErrorBody(InternalPrefix + e))
    case Success(data) =>
      if !data.Dict? then
        Reply(500, ErrorBody(InternalPrefix + "'" + TypeName(data) + "' object has no attribute 'get'"))
      else match ParseRequest(data.entries, py)
        case Failure(e) => Reply(500, ErrorBody(InternalPrefix + e))
        case Success(req) =>
          if !Truthy(req.message) then Reply(400, ErrorBody(MessageRequired))
          else
            var answer: Option<Result<Value, string>> :=
              if req.provider == Str("openai") then
                Some(CallOpenAI(clients, req.model, req.message, req.systemPrompt,
                                req.temperature, req.maxTokens, req.topP, req.seed, py, remote))
              else if req.provider == Str("google") then
                Some(CallGoogle(clients, req.model, req.message, req.systemPrompt,
                                req.temperature, req.maxTokens, req.topP, req.seed, py, remote))
              else None;
            match answer
            case None => Reply(400, ErrorBody(UnsupportedPrefix + PyStr(req.provider, py)))
            case Some(Failure(e)) => Reply(500, ErrorBody(InternalPrefix + e))
            case Some(Success(text)) => Reply(200, Echo(req, text))
  }

  /** Two bodies agree on a key: both lack it, or both hold the same value. */
  predicate Agree(d1: map<string, Value>, d2: map<string, Value>, key: string) {
    (key in d1 <==> key in d2) && (key in d1 ==> d1[key] == d2[key])
  }

  /**
   * Defaults apply independently: each parsed field depends only on its own
   * key, so the absence or value of one field never changes another.
   */
  lemma DefaultsAreIndependent(d1: map<string, Value>, d2: map<string, Value>, py: Builtins)
    requires ParseRequest(d1, py).Success? && ParseRequest(d2, py).Success?
    ensures var r1, r2 := ParseRequest(d1, py).value, ParseRequest(d2, py).value;
            && (Agree(d1, d2, "provider") ==> r1.provider == r2.provider)
            && (Agree(d1, d2, "model") ==> r1.model == r2.model)
            && (Agree(d1, d2, "message") ==> r1.message == r2.message)
            && (Agree(d1, d2, "system_prompt") ==> r1.systemPrompt == r2.systemPrompt)
            && (Agree(d1, d2, "temperature") ==> r1.temperature == r2.temperature)
            && (Agree(d1, d2, "max_tokens") ==> r1.maxTokens == r2.maxTokens)
            && (Agree(d1, d2, "top_p") ==> r1.topP == r2.topP)
            && (Agree(d1, d2, "seed") ==> r1.seed == r2.seed)
  {
  }

  /** A body holding only a message gets every documented default. */
  lemma MessageOnlyGetsDefaults(message: Value, py: Builtins)
    ensures ParseRequest(map["message" := message], py)
         == Success(ChatRequest(Str("openai"), Str("gpt-3.5-turbo"), message, Str(""),
                                PointSeven, 1000, OnePointZero, Null))
  {
  }

  /**
   * Conversions run first: a temperature, max_tokens or top_p that does not
   * convert gives the 500 envelope whatever the message and the provider.
   */
  lemma ConversionsRunFirst(data: map<string, Value>, clients: seq<Provider>, py: Builtins, remote: Remote)
    requires ParseRequest(data, py).Failure?
    ensures Chat(Success(Dict(data)), clients, py, remote)
         == Reply(500, ErrorBody(InternalPrefix + ParseRequest(data, py).error))
  {
  }

  /**
   * An absent or false message gives 400 `Message is required` whatever the
   * provider, and no adapter runs: the reply is the same for every remote.
   */
  lemma MessageCheckedBeforeProvider(data: map<string, Value>, clients: seq<Provider>, py: Builtins,
                                     remote1: Remote, remote2: Remote)
    requires ParseRequest(data, py).Success?
    requires !Truthy(Get(data, "message", DefaultMessage))
    ensures Chat(Success(Dict(data)), clients, py, remote1) == Reply(400, ErrorBody(MessageRequired))
    ensures Chat(Success(Dict(data)), clients, py, remote1) == Chat(Success(Dict(data)), clients, py, remote2)
  {
  }

  /** An unknown provider gives 400 naming it, and no adapter runs. */
  lemma UnknownProviderRejected(data: map<string, Value>, clients: seq<Provider>, py: Builtins,
                                remote1: Remote, remote2: Remote)
    requires ParseRequest(data, py).Success?
    requires Truthy(Get(data, "message", DefaultMessage))
    requires Get(data, "provider", DefaultProvider) !in {Str("openai"), Str("google")}
    ensures Chat(Success(Dict(data)), clients, py, remote1)
         == Reply(400, ErrorBody(UnsupportedPrefix + PyStr(Get(data, "provider", DefaultProvider), py)))
    ensures Chat(Success(Dict(data)), clients, py, remote1) == Chat(Success(Dict(data)), clients, py, remote2)
  {
  }

  /**
   * A routed request answers with the adapter's outcome: its text in the 200
   * envelope, or its error message behind `Internal server error: `.
   */
  lemma RoutedToAdapter(data: map<string, Value>, clients: seq<Provider>, py: Builtins, remote: Remote)
    requires ParseRequest(data, py).Success?
    requires Truthy(Get(data, "message", DefaultMessage))
    requires Get(data, "provider", DefaultProvider) in {Str("openai"), Str("google")}
    ensures var req := ParseRequest(data, py).value;
            var outcome :=
              if req.provider == Str("openai") then
                CallOpenAI(clients, req.model, req.message, req.systemPrompt, req.temperature,
                           req.maxTokens, req.topP, req.seed, py, remote)
              else
                CallGoogle(clients, req.model, req.message, req.systemPrompt, req.temperature,
                           req.maxTokens, req.topP, req.seed, py, remote);
            Chat(Success(Dict(data)), clients, py, remote)
            == match outcome
               case Success(text) => Reply(200, Echo(req, text))
               case Failure(e) => Reply(500, ErrorBody(InternalPrefix + e))
  {
  }

  /**
   * A provider without a client answers 500 with the not-initialized message
   * behind `Internal server error: ` only, not behind the adapter's API-error
   * prefix, and without any remote call.
   */
  lemma NotInitializedIsNotPrefixed(data: map<string, Value>, clients: seq<Provider>, py: Builtins,
                                    remote1: Remote, remote2: Remote)
    requires ParseRequest(data, py).Success?
    requires Truthy(Get(data, "message", DefaultMessage))
    requires Get(data, "provider", DefaultProvider) == Str("openai") && OpenAI !in clients
    ensures Chat(Success(Dict(data)), clients, py, remote1)
         == Reply(500, ErrorBody(InternalPrefix + OpenAINotInitialized))
    ensures Chat(Success(Dict(data)), clients, py, remote1) == Chat(Success(Dict(data)), clients, py, remote2)
  {
  }

  /** The same for the Google provider. */
  lemma GoogleNotInitializedIsNotPrefixed(data: map<string, Value>, clients: seq<Provider>, py: Builtins,
                                          remote1: Remote, remote2: Remote)
    requires ParseRequest(data, py).Success?
    requires Truthy(Get(data, "message", DefaultMessage))
    requires Get(data, "provider", DefaultProvider) == Str("google") && Google !in clients
    ensures Chat(Success(Dict(data)), clients, py, remote1)
         == Reply(500, ErrorBody(InternalPrefix + GoogleNotInitialized))
    ensures Chat(Success(Dict(data)), clients, py, remote1) == Chat(Success(Dict(data)), clients, py, remote2)
  {
  }

  /** A Google request that reaches the provider always gets text back, never an empty reply. */
  lemma GoogleSuccessHasText(data: map<string, Value>, clients: seq<Provider>, py: Builtins, remote: Remote)
    requires Get(data, "provider", DefaultProvider) == Str("google")
    requires Chat(Success(Dict(data)), clients, py, remote).status == 200
    ensures var b := Chat(Success(Dict(data)), clients, py, remote).body;
            b.response.Str? && b.response.s != ""
  {
  }
}
