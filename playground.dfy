/**
 * The browser front end, class `LLMPlayground`: the model parameters and the
 * model-option fallback, the conversation (`messagesData`), the send gating by
 * `isTyping`, the reset of a conversation, the persisted chat history with its
 * upsert and 50-entry cap, the share text and the character counter.
 * DOM updates other than the ones listed are not modelled.
 */
module Playground {
  import opened Wrappers
  import opened JsText
  import PyValues
  import Catalog

  type Double = PyValues.Double

  const Thousand := PyValues.Double(0x408F_4000_0000_0000)  // 1000

  datatype Sender = User | Assistant {
    /** The `sender` string stored with a message. */
    function Tag(): JsString {
      match this
      case User => Utf16("user")
      case Assistant => Utf16("assistant")
    }
  }

  /** An entry of `messagesData`; its timestamp and random id are not modelled. */
  datatype Message = Message(sender: Sender, content: JsString)

  /**
   * `modelParams`; the numbers are JavaScript numbers, only stored and passed
   * on, and the texts are never measured or cut, so they are kept as strings.
   */
  datatype ModelParams = ModelParams(
    provider: string, model: string, temperature: Double, maxTokens: Double, topP: Double,
    seed: Option<Double>, systemPrompt: string, apiKey: string)

  const DefaultParams := ModelParams("openai", "gpt-3.5-turbo", PyValues.PointSeven, Thousand,
                                     PyValues.OnePointZero, None, "", "")

  /** One saved chat of the `llm_chat_history` list; its timestamp is not modelled. */
  datatype ChatRecord = ChatRecord(id: string, title: JsString, messages: seq<Message>, params: ModelParams)

  const MaxSavedChats := 50
  const TitleLength := 50
  const Ellipsis: JsString := [0x2E, 0x2E, 0x2E]  // "..."

  // ---------------------------------------------------------------- model options

  /** `modelOptions[provider] || []`, as the values of the options. */
  function CatalogFor(provider: string): seq<string> {
    Catalog.Values(Catalog.OptionsFor(provider))
  }

  /**
   * The model kept after `updateModelOptions(provider)`: the current one if
   * the provider's catalog lists it, else the catalog's first entry; with an
   * empty catalog the model is left as it is.
   */
  function ModelAfterSwitch(provider: string, model: string): (r: string)
    ensures CatalogFor(provider) != [] ==> r in CatalogFor(provider)
    ensures model in CatalogFor(provider) || CatalogFor(provider) == [] ==> r == model
    ensures model !in CatalogFor(provider) && CatalogFor(provider) != [] ==> r == CatalogFor(provider)[0]
  {
    var models := CatalogFor(provider);
    if |models| > 0 && model !in models then models[0] else model
  }

  /** Applying the fallback twice changes nothing more than applying it once. */
  lemma ModelAfterSwitchIdempotent(provider: string, model: string)
    ensures ModelAfterSwitch(provider, ModelAfterSwitch(provider, model)) == ModelAfterSwitch(provider, model)
  {
  }

  /**
   * The parameters after `loadSettings`: the saved ones replace the current
   * ones when there are any, then the model fallback for their provider.
   */
  function Loaded(saved: Option<ModelParams>, current: ModelParams): ModelParams {
    var p := saved.GetOr(current);
    p.(model := ModelAfterSwitch(p.provider, p.model))
  }

  /** The default model is in the default provider's catalog, so the fallback keeps it. */
  lemma DefaultModelIsOffered()
    ensures DefaultParams.model in CatalogFor(DefaultParams.provider)
    ensures ModelAfterSwitch(DefaultParams.provider, DefaultParams.model) == DefaultParams.model
  {
    Catalog.CatalogsAreWellFormed();
  }

  /**
   * Loading the settings a second time, as the page start-up does right after
   * the constructor loaded them, changes nothing.
   */
  lemma LoadedIdempotent(saved: Option<ModelParams>, current: ModelParams)
    ensures Loaded(saved, Loaded(saved, current)) == Loaded(saved, current)
    ensures saved.Some? ==> Loaded(saved, current).provider == saved.value.provider
    ensures Loaded(saved, current).model in CatalogFor(Loaded(saved, current).provider)
            || CatalogFor(Loaded(saved, current).provider) == []
  {
    var p := saved.GetOr(current);
    ModelAfterSwitchIdempotent(p.provider, p.model);
  }

  // ---------------------------------------------------------------- input gating and counter

  /** `sendBtn.disabled`: no text after trimming, or a reply still pending. */
  predicate SendDisabled(input: JsString, isTyping: bool) {
    Trim(input) == [] || isTyping
  }

  /** The send button is disabled exactly when the input is all white space or a reply is pending. */
  lemma SendDisabledSpec(input: JsString, isTyping: bool)
    ensures SendDisabled(input, isTyping) <==> isTyping || forall k :: 0 <= k < |input| ==> IsSpace(input[k])
  {
    TrimSpec(input);
  }

  datatype CountColor = Grey | Orange | Red {
    function Hex(): string {
      match this
      case Grey => "#666666"
      case Orange => "#ffaa44"
      case Red => "#ff4444"
    }
    function Rank(): nat {
      match this
      case Grey => 0
      case Orange => 1
      case Red => 2
    }
  }

  /** The counter colour for a length in code units (`messageInput.value.length`). */
  function CountColorOf(count: nat): CountColor {
    if count > 2000 then Red else if count > 1500 then Orange else Grey
  }

  /** Red above 2000, orange above 1500 up to 2000, grey otherwise; a longer input is never less alarming. */
  lemma CountColorThresholds(count: nat, longer: nat)
    ensures CountColorOf(count) == Red <==> count > 2000
    ensures CountColorOf(count) == Orange <==> 1500 < count <= 2000
    ensures CountColorOf(count) == Grey <==> count <= 1500
    ensures count <= longer ==> CountColorOf(count).Rank() <= CountColorOf(longer).Rank()
  {
  }

  /** `${count} characters`, counting UTF-16 code units. */
  function CharCountText(input: JsString): JsString {
    Utf16(PyValues.NatDigits(|input|) + " characters")
  }

  // ---------------------------------------------------------------- replies

  /** "Sorry, I encountered an error: " */
  const ErrorLead: JsString := [
    0x53, 0x6F, 0x72, 0x72, 0x79, 0x2C, 0x20, 0x49, 0x20, 0x65, 0x6E, 0x63,
    0x6F, 0x75, 0x6E, 0x74, 0x65, 0x72, 0x65, 0x64, 0x20, 0x61, 0x6E, 0x20,
    0x65, 0x72, 0x72, 0x6F, 0x72, 0x3A, 0x20
  ]
  /** ". Please check your API keys and try again." */
  const ErrorTail: JsString := [
    0x2E, 0x20, 0x50, 0x6C, 0x65, 0x61, 0x73, 0x65, 0x20, 0x63, 0x68, 0x65,
    0x63, 0x6B, 0x20, 0x79, 0x6F, 0x75, 0x72, 0x20, 0x41, 0x50, 0x49, 0x20,
    0x6B, 0x65, 0x79, 0x73, 0x20, 0x61, 0x6E, 0x64, 0x20, 0x74, 0x72, 0x79,
    0x20, 0x61, 0x67, 0x61, 0x69, 0x6E, 0x2E
  ]

  /** The apology `generateAIResponse` shows for an error with the given message. */
  function ErrorText(message: JsString): JsString {
    ErrorLead + message + ErrorTail
  }

  /**
   * The assistant message `generateAIResponse` adds for the outcome of the
   * backend call: `Success(Some(text))` is a text response, `Success(None)` a
   * null one, `Failure(message)` the message `callBackendAPI` threw.  A null
   * response makes `addMessage` throw in `formatMessage` before anything is
   * stored, so the apology carries the message of that TypeError,
   * `nullMessage`, whose wording depends on the browser.
   */
  function AssistantText(reply: Result<Option<JsString>, JsString>, nullMessage: JsString): JsString {
    match reply
    case Success(Some(text)) => text
    case Success(None) => ErrorText(nullMessage)
    case Failure(message) => ErrorText(message)
  }

  // ---------------------------------------------------------------- sharing

  function Label(s: Sender): JsString {
    AsciiUpper(s.Tag())
  }

  const ColonSpace: JsString := [0x3A, 0x20]  // ": "

  function ShareLine(m: Message): JsString {
    Label(m.sender) + ColonSpace + m.content
  }

  function ShareLines(msgs: seq<Message>): seq<JsString> {
    seq(|msgs|, k requires 0 <= k < |msgs| => ShareLine(msgs[k]))
  }

  /** `Array.prototype.join`. */
  function Join(parts: seq<JsString>, sep: JsString): JsString {
    if |parts| == 0 then []
    else if |parts| == 1 then parts[0]
    else parts[0] + sep + Join(parts[1..], sep)
  }

  const ShareSeparator: JsString := [0x0A, 0x0A]  // "\n\n"

  /** The text `shareConversation` hands on, or nothing when there is no conversation. */
  function ShareText(msgs: seq<Message>): Option<JsString> {
    if msgs == [] then None else Some(Join(ShareLines(msgs), ShareSeparator))
  }

  lemma {:induction false} JoinAppend(parts: seq<JsString>, last: JsString, sep: JsString)
    requires parts != []
    ensures Join(parts + [last], sep) == Join(parts, sep) + sep + last
  {
    if |parts| == 1 {
      assert parts + [last] == [parts[0], last];
    } else {
      assert (parts + [last])[1..] == parts[1..] + [last];
      JoinAppend(parts[1..], last, sep);
    }
  }

  /**
   * The share text lists the messages in order, one `SENDER: content` line
   * each, separated by a blank line: a new message extends it by one line.
   */
  lemma {:induction false} ShareTextGrows(msgs: seq<Message>, m: Message)
    ensures ShareText([]) == None
    ensures msgs == [] ==> ShareText(msgs + [m]) == Some(ShareLine(m))
    ensures msgs != [] ==> ShareText(msgs + [m]) == Some(ShareText(msgs).value + ShareSeparator + ShareLine(m))
  {
    assert ShareLines(msgs + [m]) == ShareLines(msgs) + [ShareLine(m)];
    if msgs != [] {
      JoinAppend(ShareLines(msgs), ShareLine(m), ShareSeparator);
    }
  }

  /** Senders are shown upper-cased: the user's label. */
  lemma UserLabelIsUpperCase()
    ensures Label(User) == Utf16("USER")
  {
  }

  /** Senders are shown upper-cased: the assistant's label. */
  lemma AssistantLabelIsUpperCase()
    ensures Label(Assistant) == Utf16("ASSISTANT")
  {
  }

  // ---------------------------------------------------------------- chat history

  /** The saved title: the first 50 code units of the first message, then `...`, however short it is. */
  function ChatTitle(first: Message): (t: JsString)
    ensures |t| == |Prefix(first.content, TitleLength)| + 3 <= TitleLength + 3
    ensures t[..|t| - 3] == first.content[..|t| - 3] && t[|t| - 3..] == Ellipsis
  {
    Prefix(first.content, TitleLength) + Ellipsis
  }

  /** `history.findIndex(chat => chat.id === id)`: the first index holding the id, or -1. */
  function FirstIndex(history: seq<ChatRecord>, id: string): (r: int)
    ensures -1 <= r < |history|
    ensures r >= 0 ==> history[r].id == id && forall j :: 0 <= j < r ==> history[j].id != id
    ensures r == -1 ==> forall j :: 0 <= j < |history| ==> history[j].id != id
  {
    if history == [] then -1
    else if history[0].id == id then 0
    else var rest := FirstIndex(history[1..], id); if rest == -1 then -1 else rest + 1
  }

  /** The search loop of `findIndex`. */
  method FindChat(history: seq<ChatRecord>, id: string) returns (index: int)
    ensures index == FirstIndex(history, id)
  {
    index := 0;
    while index < |history|
      invariant 0 <= index <= |history|
      invariant forall j :: 0 <= j < index ==> history[j].id != id
    {
      if history[index].id == id {
        return;
      }
      index := index + 1;
    }
    index := -1;
  }

  /** Any index holding the id with no earlier one holding it is the one `FirstIndex` finds. */
  lemma FirstIndexIsFirst(history: seq<ChatRecord>, id: string, i: nat)
    requires i < |history| && history[i].id == id
    requires forall j :: 0 <= j < i ==> history[j].id != id
    ensures FirstIndex(history, id) == i
  {
  }

  /** The list `saveChatHistory` stores: replace the first entry with the chat's id or prepend, then keep 50. */
  function Upsert(history: seq<ChatRecord>, chat: ChatRecord): seq<ChatRecord> {
    var i := FirstIndex(history, chat.id);
    var updated := if i >= 0 then history[i := chat] else [chat] + history;
    if |updated| > MaxSavedChats then updated[..MaxSavedChats] else updated
  }

  /** The entries whose id differs from `id`, in their order. */
  function Others(history: seq<ChatRecord>, id: string): seq<ChatRecord> {
    if history == [] then []
    else (if history[0].id != id then [history[0]] else []) + Others(history[1..], id)
  }

  predicate IsPrefix<T(==)>(a: seq<T>, b: seq<T>) {
    |a| <= |b| && a == b[..|a|]
  }

  lemma {:induction false} OthersIgnoresSameId(history: seq<ChatRecord>, i: nat, chat: ChatRecord)
    requires i < |history| && history[i].id == chat.id
    ensures Others(history[i := chat], chat.id) == Others(history, chat.id)
  {
    if i > 0 {
      assert history[i := chat][1..] == history[1..][i - 1 := chat];
      OthersIgnoresSameId(history[1..], i - 1, chat);
    }
  }

  lemma {:induction false} OthersOfPrefix(history: seq<ChatRecord>, k: nat, id: string)
    requires k <= |history|
    ensures IsPrefix(Others(history[..k], id), Others(history, id))
  {
    if k > 0 {
      assert history[..k][1..] == history[1..][..k - 1];
      OthersOfPrefix(history[1..], k - 1, id);
    } else {
      assert history[..k] == [];
    }
  }

  /**
   * Upserting keeps at most 50 chats and never reorders the others: the
   * entries with other ids are a prefix of the old ones (all of them when the
   * list was not cut), in the same order.
   */
  lemma UpsertKeepsOthersInOrder(history: seq<ChatRecord>, chat: ChatRecord)
    ensures |Upsert(history, chat)| <= MaxSavedChats
    ensures IsPrefix(Others(Upsert(history, chat), chat.id), Others(history, chat.id))
    ensures |history| < MaxSavedChats ==> Others(Upsert(history, chat), chat.id) == Others(history, chat.id)
  {
    var i := FirstIndex(history, chat.id);
    var updated := if i >= 0 then history[i := chat] else [chat] + history;
    if i >= 0 {
      OthersIgnoresSameId(history, i, chat);
    } else {
      assert updated[1..] == history;
    }
    assert Others(updated, chat.id) == Others(history, chat.id);
    if |updated| > MaxSavedChats {
      OthersOfPrefix(updated, MaxSavedChats, chat.id);
    }
  }

  /**
   * Where the saved chat ends up.  Replacing an entry among the first 50
   * keeps its index and every other entry; a chat not yet saved goes to the
   * front; but a chat whose entry sits at index 50 or later of an over-long
   * list is replaced and then cut off, so that save is lost.
   */
  lemma UpsertPlacesChat(history: seq<ChatRecord>, chat: ChatRecord)
    ensures var i := FirstIndex(history, chat.id);
            var h := Upsert(history, chat);
            && (0 <= i < MaxSavedChats ==>
                  && FirstIndex(h, chat.id) == i && h[i] == chat
                  && |h| == (if |history| < MaxSavedChats then |history| else MaxSavedChats)
                  && forall j :: 0 <= j < |h| && j != i ==> h[j] == history[j])
            && (i < 0 ==>
                  && FirstIndex(h, chat.id) == 0 && h[0] == chat && h == ([chat] + history)[..|h|]
                  && |h| == (if |history| < MaxSavedChats then |history| + 1 else MaxSavedChats))
            && (i >= MaxSavedChats ==> FirstIndex(h, chat.id) == -1 && h == history[..MaxSavedChats])
  {
    var i := FirstIndex(history, chat.id);
    var h := Upsert(history, chat);
    if 0 <= i < MaxSavedChats {
      var updated := history[i := chat];
      assert h == if |updated| > MaxSavedChats then updated[..MaxSavedChats] else updated;
      assert forall j :: 0 <= j < i ==> h[j].id != chat.id;
      FirstIndexIsFirst(h, chat.id, i);
    } else if i < 0 {
      assert h[0] == chat;
      FirstIndexIsFirst(h, chat.id, 0);
    } else {
      assert h == history[..MaxSavedChats];
      assert forall j :: 0 <= j < |h| ==> h[j].id != chat.id;
    }
  }

  /** `Upsert` never lets the list grow past 50, so a list it wrote stays within the cap. */
  lemma UpsertBounded(history: seq<ChatRecord>, chat: ChatRecord)
    ensures |Upsert(history, chat)| <= MaxSavedChats
    ensures |history| <= MaxSavedChats ==> |Upsert(history, chat)| >= |history|
  {
  }

  // ---------------------------------------------------------------- the page state

  class LLMPlayground {
    var modelParams: ModelParams
    var messagesData: seq<Message>
    var isTyping: bool
    var currentChatId: Option<string>
    /** `messageInput.value`. */
    var input: JsString
    /** Whether the welcome screen is displayed instead of the chat view. */
    var welcomeShown: bool
    /** `localStorage['llm_chat_history']`, decoded. */
    var storedHistory: seq<ChatRecord>
    /** `localStorage['llm_model_params']`, decoded, or nothing when never saved. */
    var storedParams: Option<ModelParams>

    /**
     * Between two handlers no reply is pending, a chat id is never the empty
     * string, and the chat view is shown only with a chat id set.
     */
    ghost predicate Valid()
      reads this
    {
      && !isTyping
      && (currentChatId.Some? ==> currentChatId.value != [])
      && (!welcomeShown ==> currentChatId.Some?)
    }

    /** `this.currentChatId` is truthy. */
    predicate HasChatId()
      reads this
    {
      currentChatId.Some? && currentChatId.value != []
    }

    /** The record `saveChatHistory` writes for the current conversation. */
    function CurrentRecord(): ChatRecord
      reads this
      requires messagesData != [] && currentChatId.Some?
    {
      ChatRecord(currentChatId.value, ChatTitle(messagesData[0]), messagesData, modelParams)
    }

    /**
     * The constructor with `loadChatHistory` and `loadSettings`: the saved
     * parameters (or the defaults) with the model adjusted to the provider's
     * catalog.
     */
    constructor(history: seq<ChatRecord>, saved: Option<ModelParams>)
      ensures Valid()
      ensures messagesData == [] && currentChatId == None && input == [] && welcomeShown
      ensures storedHistory == history && storedParams == saved
      ensures modelParams == Loaded(saved, DefaultParams)
    {
      messagesData := [];
      isTyping := false;
      currentChatId := None;
      input := [];
      welcomeShown := true;
      storedHistory := history;
      storedParams := saved;
      modelParams := DefaultParams;
      new;
      LoadSettings();
    }

    /**
     * `loadSettings()`: take the saved parameters if there are any, then
     * apply the model fallback for the provider they name.
     */
    method LoadSettings()
      modifies this
      ensures modelParams == Loaded(storedParams, old(modelParams))
      ensures messagesData == old(messagesData) && isTyping == old(isTyping)
      ensures currentChatId == old(currentChatId) && input == old(input) && welcomeShown == old(welcomeShown)
      ensures storedHistory == old(storedHistory) && storedParams == old(storedParams)
    {
      if storedParams.Some? {
        modelParams := storedParams.value;
        UpdateModelOptions(modelParams.provider);
      } else {
        UpdateModelOptions(modelParams.provider);
      }
    }

    /** `updateModelOptions(provider)`: keep the model if the catalog lists it, else take the first entry. */
    method UpdateModelOptions(provider: string)
      modifies this
      ensures modelParams == old(modelParams).(model := ModelAfterSwitch(provider, old(modelParams).model))
      ensures messagesData == old(messagesData) && isTyping == old(isTyping)
      ensures currentChatId == old(currentChatId) && input == old(input) && welcomeShown == old(welcomeShown)
      ensures storedHistory == old(storedHistory) && storedParams == old(storedParams)
    {
      var models := CatalogFor(provider);
      if |models| > 0 {
        var currentModelExists := modelParams.model in models;
        if !currentModelExists {
          modelParams := modelParams.(model := models[0]);
        }
      }
    }

    /**
     * `resetSettings()` with the answer of `confirm`: when confirmed, the
     * defaults replace the parameters, `updateModelControls` runs the model
     * fallback for the default provider, and the settings are saved; the
     * default model is in its catalog, so the result is the defaults exactly.
     */
    method ResetSettings(confirmed: bool)
      modifies this
      ensures confirmed ==> modelParams == DefaultParams && storedParams == Some(DefaultParams)
      ensures !confirmed ==> modelParams == old(modelParams) && storedParams == old(storedParams)
      ensures messagesData == old(messagesData) && isTyping == old(isTyping)
      ensures currentChatId == old(currentChatId) && input == old(input) && welcomeShown == old(welcomeShown)
      ensures storedHistory == old(storedHistory)
    {
      if confirmed {
        modelParams := DefaultParams;
        UpdateModelOptions(modelParams.provider);
        DefaultModelIsOffered();
        storedParams := Some(modelParams);
      }
    }

    /** `switchProvider(provider)`: set the provider, apply the model fallback, save the settings. */
    method SwitchProvider(provider: string)
      modifies this
      ensures modelParams == old(modelParams).(provider := provider,
                                               model := ModelAfterSwitch(provider, old(modelParams).model))
      ensures storedParams == Some(modelParams)
      ensures messagesData == old(messagesData) && isTyping == old(isTyping)
      ensures currentChatId == old(currentChatId) && input == old(input) && welcomeShown == old(welcomeShown)
      ensures storedHistory == old(storedHistory)
    {
      modelParams := modelParams.(provider := provider);
      UpdateModelOptions(provider);
      storedParams := Some(modelParams);
    }

    /**
     * `updateModel(model)`: the model picked from the list replaces the
     * current one, without the catalog check, and the settings are saved.
     */
    method UpdateModel(model: string)
      modifies this
      ensures modelParams == old(modelParams).(model := model)
      ensures storedParams == Some(modelParams)
      ensures messagesData == old(messagesData) && isTyping == old(isTyping)
      ensures currentChatId == old(currentChatId) && input == old(input) && welcomeShown == old(welcomeShown)
      ensures storedHistory == old(storedHistory)
    {
      modelParams := modelParams.(model := model);
      storedParams := Some(modelParams);
    }

    /** `addMessage(sender, content)`: push the message onto `messagesData`. */
    method AddMessage(sender: Sender, content: JsString)
      modifies this
      ensures messagesData == old(messagesData) + [Message(sender, content)]
      ensures modelParams == old(modelParams) && isTyping == old(isTyping)
      ensures currentChatId == old(currentChatId) && input == old(input) && welcomeShown == old(welcomeShown)
      ensures storedHistory == old(storedHistory) && storedParams == old(storedParams)
    {
      messagesData := messagesData + [Message(sender, content)];
    }

    /**
     * `generateAIResponse`: with `isTyping` set, add one assistant message,
     * the reply or the error text; `isTyping` is cleared whatever the outcome.
     * `reply` is what `callBackendAPI` resolved to or the message it threw;
     * `nullMessage` is the browser's TypeError message for a null response.
     */
    method GenerateAIResponse(reply: Result<Option<JsString>, JsString>, nullMessage: JsString)
      modifies this
      ensures messagesData == old(messagesData) + [Message(Assistant, AssistantText(reply, nullMessage))]
      ensures !isTyping
      ensures modelParams == old(modelParams)
      ensures currentChatId == old(currentChatId) && input == old(input) && welcomeShown == old(welcomeShown)
      ensures storedHistory == old(storedHistory) && storedParams == old(storedParams)
    {
      isTyping := true;
      AddMessage(Assistant, AssistantText(reply, nullMessage));
      isTyping := false;
    }

    /** `saveChatHistory()`: upsert the conversation into the stored list when there is one to save. */
    method SaveChatHistory()
      modifies this
      ensures storedHistory == if messagesData != [] && HasChatId() then Upsert(old(storedHistory), CurrentRecord())
                               else old(storedHistory)
      ensures messagesData == old(messagesData) && modelParams == old(modelParams) && isTyping == old(isTyping)
      ensures currentChatId == old(currentChatId) && input == old(input) && welcomeShown == old(welcomeShown)
      ensures storedParams == old(storedParams)
    {
      if |messagesData| > 0 && HasChatId() {
        var chatData := ChatRecord(currentChatId.value, ChatTitle(messagesData[0]), messagesData, modelParams);
        var history := storedHistory;
        var existingIndex := FindChat(history, chatData.id);
        if existingIndex >= 0 {
          history := history[existingIndex := chatData];
        } else {
          history := [chatData] + history;
        }
        if |history| > MaxSavedChats {
          history := history[..MaxSavedChats];
        }
        storedHistory := history;
      }
    }

    /**
     * `handleSendMessage()`: nothing at all happens when the send button would
     * be disabled; otherwise the trimmed input becomes one user message, the
     * reply one assistant message, the input is cleared and the chat saved.
     * `nowId` is `Date.now().toString()`.
     */
    method HandleSendMessage(reply: Result<Option<JsString>, JsString>, nullMessage: JsString, nowId: string)
      requires Valid() && nowId != []
      modifies this
      ensures Valid()
      ensures SendDisabled(old(input), old(isTyping)) ==>
                && messagesData == old(messagesData) && currentChatId == old(currentChatId)
                && input == old(input) && welcomeShown == old(welcomeShown)
                && storedHistory == old(storedHistory)
      ensures !SendDisabled(old(input), old(isTyping)) ==>
                && messagesData == old(messagesData) + [Message(User, Trim(old(input))),
                                                        Message(Assistant, AssistantText(reply, nullMessage))]
                && input == [] && !welcomeShown
                && currentChatId == (if old(currentChatId).Some? then old(currentChatId) else Some(nowId))
                && storedHistory == Upsert(old(storedHistory), CurrentRecord())
      ensures modelParams == old(modelParams) && storedParams == old(storedParams) && !isTyping
    {
      var message := Trim(input);
      if message == [] || isTyping {
        return;
      }
      Send(message, reply, nullMessage, nowId);
    }

    /** The part of `handleSendMessage()` past its guard, for the trimmed, non-empty `message`. */
    method Send(message: JsString, reply: Result<Option<JsString>, JsString>, nullMessage: JsString, nowId: string)
      requires Valid() && nowId != [] && message != [] && !isTyping
      modifies this
      ensures Valid()
      ensures messagesData == old(messagesData) + [Message(User, message),
                                                   Message(Assistant, AssistantText(reply, nullMessage))]
      ensures input == [] && !welcomeShown
      ensures currentChatId == (if old(currentChatId).Some? then old(currentChatId) else Some(nowId))
      ensures storedHistory == Upsert(old(storedHistory), CurrentRecord())
      ensures modelParams == old(modelParams) && storedParams == old(storedParams) && !isTyping
    {
      if welcomeShown {
        // switchToChatView
        welcomeShown := false;
        if !HasChatId() {
          currentChatId := Some(nowId);
        }
      }
      assert HasChatId();
      ghost var before := messagesData;
      ghost var answer := Message(Assistant, AssistantText(reply, nullMessage));
      AddMessage(User, message);
      input := [];
      GenerateAIResponse(reply, nullMessage);
      assert messagesData == before + [Message(User, message), answer];
      SaveChatHistory();
    }

    /** `startNewChat()`: an empty conversation with no chat id, the welcome screen and an empty input. */
    method StartNewChat()
      requires Valid()
      modifies this
      ensures Valid()
      ensures messagesData == [] && currentChatId == None && input == [] && welcomeShown
      ensures modelParams == old(modelParams) && isTyping == old(isTyping)
      ensures storedHistory == old(storedHistory) && storedParams == old(storedParams)
    {
      messagesData := [];
      currentChatId := None;
      welcomeShown := true;
      input := [];
    }

    /** `clearConversation()` with the answer of `confirm`: reset when confirmed, else change nothing. */
    method ClearConversation(confirmed: bool)
      requires Valid()
      modifies this
      ensures Valid()
      ensures confirmed ==> messagesData == [] && currentChatId == None && welcomeShown
      ensures !confirmed ==> messagesData == old(messagesData) && currentChatId == old(currentChatId)
                             && welcomeShown == old(welcomeShown)
      ensures input == old(input) && modelParams == old(modelParams) && isTyping == old(isTyping)
      ensures storedHistory == old(storedHistory) && storedParams == old(storedParams)
    {
      if confirmed {
        messagesData := [];
        welcomeShown := true;
        currentChatId := None;
      }
    }
  }
}
