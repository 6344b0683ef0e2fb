/**
 * The AI module of ai.js: the fixed registry of prompt actions, the call to the chat
 * completions service with its error mapping, and the session ledger of tokens and cost.
 * The HTTP exchange is a function from the request to the decoded reply, supplied by the
 * caller; the API key is the one `getSettings` returns.
 */
module Ai {
  import opened Wrappers
  import opened JsStrings
  import opened Storage

  // ----- The action registry -----

  /** The seven entries of `AI_ACTIONS` (ai.js:22-78). */
  datatype ActionId = GenerateReadme | ImproveText | Summarize | SuggestBadges | GenerateTable | Translate | ExplainCode

  /** The property name of each action in `AI_ACTIONS`. */
  function Key(a: ActionId): string {
    match a
    case GenerateReadme => "generate-readme"
    case ImproveText => "improve-text"
    case Summarize => "summarize"
    case SuggestBadges => "suggest-badges"
    case GenerateTable => "generate-table"
    case Translate => "translate"
    case ExplainCode => "explain-code"
  }

  /** The fields of an action besides its prompt builder. */
  datatype ActionConfig = ActionConfig(title: string, inputLabel: string, placeholder: string, systemPrompt: string)

  function Config(a: ActionId): ActionConfig {
    match a
    case GenerateReadme => ActionConfig(
      "Generate README",
      "Describe your project (name, tech stack, features)",
      "e.g. \"TodoApp \U{2014} a task management app built with React & Firebase. Features: auth, CRUD tasks, categories, dark mode.\"",
      "You are a GitHub README expert. Create professional README.md files with badges (shields.io), emojis, and clear sections. Use GitHub Flavored Markdown. Return ONLY markdown.")
    case ImproveText => ActionConfig(
      "Improve Text",
      "Paste the text you want to improve",
      "Paste markdown text here...",
      "Improve markdown text to be more professional, clear, and well-structured. Fix grammar, enhance wording. Return ONLY improved markdown.")
    case Summarize => ActionConfig(
      "Summarize",
      "Paste the text to summarize",
      "Paste long text here...",
      "Create concise markdown summaries with bullet points. Return ONLY the summary.")
    case SuggestBadges => ActionConfig(
      "Suggest Badges",
      "Describe your project (tech, license, etc.)",
      "e.g. \"React, TypeScript, MIT license, npm package, has CI/CD\"",
      "Suggest shields.io badges in markdown. Return ONLY badge markdown code.")
    case GenerateTable => ActionConfig(
      "Generate Table",
      "Describe the table you need",
      "e.g. \"3 columns: Command, Description, Example. 5 rows for git commands.\"",
      "Create properly formatted markdown tables. Return ONLY the table.")
    case Translate => ActionConfig(
      "Translate (EN\U{2194}TR)",
      "Paste the text to translate",
      "Paste text here... (auto-detects language direction)",
      "Translate markdown between Turkish and English. Preserve all formatting. Return ONLY translated text.")
    case ExplainCode => ActionConfig(
      "Explain Code",
      "Paste the code to explain",
      "Paste code here...",
      "Explain code and create markdown documentation. Include description, parameters, return values, and usage example. Return ONLY markdown.")
  }

  /** The text each `buildPrompt` template puts before the input. */
  function PromptPrefix(a: ActionId): string {
    match a
    case GenerateReadme => "Create a complete README.md for:\n\n"
    case ImproveText => "Improve this markdown:\n\n"
    case Summarize => "Summarize:\n\n"
    case SuggestBadges => "Suggest shields.io badges for: "
    case GenerateTable => "Create a markdown table: "
    case Translate => "Translate (TR\U{2194}EN), preserve markdown formatting:\n\n"
    case ExplainCode => "Explain this code:\n\n```\n"
  }

  /** The text each `buildPrompt` template puts after the input. */
  function PromptSuffix(a: ActionId): string {
    match a
    case GenerateReadme => "\n\nInclude: title, badges, description, features, tech stack, getting started, usage, contributing, license."
    case ExplainCode => "\n```"
    case _ => ""
  }

  /** `AI_ACTIONS[id].buildPrompt(input)`: the input, verbatim, inside the action's template. */
  function BuildPrompt(a: ActionId, input: string): string {
    PromptPrefix(a) + input + PromptSuffix(a)
  }

  /** The text between `prefix` and `suffix` when `t` starts with the one and ends with the other. */
  function Between(t: string, prefix: string, suffix: string): Option<string> {
    if |prefix| + |suffix| <= |t| && StartsWith(t, prefix) && EndsWith(t, suffix)
    then Some(t[|prefix|..|t| - |suffix|])
    else None
  }

  /** The input a prompt of action `a` was built from, read back from between the template's two parts. */
  function PromptInput(a: ActionId, prompt: string): Option<string> {
    Between(prompt, PromptPrefix(a), PromptSuffix(a))
  }

  /** Text placed between a prefix and a suffix is read back whole, and different texts give different results. */
  lemma BetweenRoundTrip(prefix: string, x: string, y: string, suffix: string)
    ensures Between(prefix + x + suffix, prefix, suffix) == Some(x)
    ensures prefix + x + suffix == prefix + y + suffix ==> x == y
  {
    var t := prefix + x + suffix;
    assert t[..|prefix|] == prefix;
    assert t[|t| - |suffix|..] == suffix;
    assert t[|prefix|..|t| - |suffix|] == x;
    if prefix + y + suffix == t {
      var u := prefix + y + suffix;
      assert u[|prefix|..|u| - |suffix|] == y;
    }
  }

  /** The prompt embeds the input verbatim: it can be read back, and different inputs give different prompts. */
  lemma PromptRoundTrip(a: ActionId, input: string, other: string)
    ensures PromptInput(a, BuildPrompt(a, input)) == Some(input)
    ensures BuildPrompt(a, input) == BuildPrompt(a, other) ==> input == other
  {
    BetweenRoundTrip(PromptPrefix(a), input, other, PromptSuffix(a));
  }

  /** `getAiAction(id)` for an id that is one of the registry's own keys. */
  function ActionFor(key: string): (r: Option<ActionId>)
    ensures r.Some? ==> Key(r.value) == key
  {
    if key == "generate-readme" then Some(GenerateReadme)
    else if key == "improve-text" then Some(ImproveText)
    else if key == "summarize" then Some(Summarize)
    else if key == "suggest-badges" then Some(SuggestBadges)
    else if key == "generate-table" then Some(GenerateTable)
    else if key == "translate" then Some(Translate)
    else if key == "explain-code" then Some(ExplainCode)
    else None
  }

  /** Every action is found under its own key, and only the seven keys find an action. */
  lemma ActionForKeys(a: ActionId, key: string)
    ensures ActionFor(Key(a)) == Some(a)
    ensures ActionFor(key).None? <==> forall b: ActionId :: Key(b) != key
  {
    forall b: ActionId ensures ActionFor(Key(b)) == Some(b) {
      KeyFound(b);
    }
  }

  lemma KeyFound(a: ActionId)
    ensures ActionFor(Key(a)) == Some(a)
  {
    match a {
      case GenerateReadme =>
      case ImproveText =>
      case Summarize =>
      case SuggestBadges =>
      case GenerateTable =>
      case Translate =>
      case ExplainCode =>
    }
  }

  // ----- The registry lookup as written -----

  /**
   * The properties every object inherits from `Object.prototype` (ECMA-262, section 20.1.3,
   * and Annex B, section B.2.2): `AI_ACTIONS[key]` finds these too.
   */
  const InheritedKeys: set<string> := {
    "constructor", "hasOwnProperty", "isPrototypeOf", "propertyIsEnumerable", "toLocaleString",
    "toString", "valueOf", "__proto__", "__defineGetter__", "__defineSetter__",
    "__lookupGetter__", "__lookupSetter__"
  }

  /** What the property access `AI_ACTIONS[key]` yields. */
  datatype Lookup = OwnAction(id: ActionId) | InheritedProperty(name: string) | NoProperty

  /** `AI_ACTIONS[key] || null` (ai.js:186-188): an inherited property is not null either. */
  function GetAiActionAsWritten(key: string): Lookup {
    var a := ActionFor(key);
    if a.Some? then OwnAction(a.value)
    else if key in InheritedKeys then InheritedProperty(key)
    else NoProperty
  }

  /** `getAiAction(id)` as evidently intended: an action only for the registry's own keys. */
  function GetAiAction(key: string): Option<ActionConfig> {
    match ActionFor(key)
    case Some(a) => Some(Config(a))
    case None => None
  }

  /** `getAiAction('toString')` is not null as written, though no action has that key. */
  lemma InheritedKeyFound()
    ensures GetAiActionAsWritten("toString") == InheritedProperty("toString")
    ensures GetAiAction("toString") == None
  {
  }

  /** The corrected lookup finds each action's configuration under the action's key. */
  lemma GetAiActionFinds(a: ActionId)
    ensures GetAiAction(Key(a)) == Some(Config(a))
  {
    KeyFound(a);
  }

  /** The corrected lookup finds nothing under a name that is not one of the seven keys. */
  lemma GetAiActionNone(key: string)
    ensures GetAiAction(key).None? <==> forall a: ActionId :: Key(a) != key
  {
    forall a: ActionId ensures ActionFor(Key(a)) == Some(a) {
      KeyFound(a);
    }
  }

  /** Apart from the inherited names, the lookup as written finds exactly the actions the corrected one does. */
  lemma LookupAgrees(key: string)
    requires key !in InheritedKeys
    ensures GetAiActionAsWritten(key) != NoProperty <==> GetAiAction(key).Some?
    ensures GetAiAction(key).Some? ==> GetAiActionAsWritten(key) == OwnAction(ActionFor(key).value)
  {
  }

  // ----- Calls -----

  /** What the HTTP exchange sends: the key for the `Authorization` header and the two messages. */
  datatype ChatRequest = ChatRequest(apiKey: string, systemPrompt: string, userPrompt: string)

  /** The token fields of the reply's `usage`, each possibly missing. */
  datatype ReplyUsage = ReplyUsage(promptTokens: Option<nat>, completionTokens: Option<nat>, totalTokens: Option<nat>)

  /**
   * The decoded reply: the HTTP status, `error.message` of an error body, the text of the
   * first choice, and the usage.
   */
  datatype ChatReply = ChatReply(status: nat, errorMessage: Option<string>, text: Option<string>, usage: ReplyUsage)

  /** `response.ok`. */
  predicate Ok(status: nat) {
    200 <= status <= 299
  }

  /** The errors `callOpenAI` and `executeAiAction` throw. */
  datatype AiError = MissingKey | RateLimited | InvalidKey | AccessDenied | ApiError(message: string) | EmptyResponse | UnknownAction

  function Message(e: AiError): string {
    match e
    case MissingKey => "API key not found. Please enter your OpenAI API key in Settings."
    case RateLimited => "Rate limit exceeded. Please wait a moment and try again."
    case InvalidKey => "Invalid API key. Please check your key in Settings."
    case AccessDenied => "Insufficient API balance or access denied."
    case ApiError(m) => m
    case EmptyResponse => "Empty response from OpenAI."
    case UnknownAction => "Unknown AI action."
  }

  /** The error for a reply that is not ok (ai.js:125-137), in the order the checks are made. */
  function ErrorForStatus(status: nat, remote: Option<string>): AiError {
    if status == 429 then RateLimited
    else if status == 401 then InvalidKey
    else if status == 402 || status == 403 then AccessDenied
    else if remote.Some? && remote.value != [] then ApiError(remote.value)
    else ApiError("API error: " + Decimal(status))
  }

  /**
   * 429, 401 and 402/403 have their own messages; any other status shows the service's message,
   * or `API error: ` and the status, from which the status can be read back.
   */
  lemma ErrorForStatusCases(status: nat, remote: Option<string>)
    ensures ErrorForStatus(status, remote) == RateLimited <==> status == 429
    ensures ErrorForStatus(status, remote) == InvalidKey <==> status == 401
    ensures ErrorForStatus(status, remote) == AccessDenied <==> status == 402 || status == 403
    ensures ErrorForStatus(status, remote).ApiError? <==> status !in {401, 402, 403, 429}
    ensures status !in {401, 402, 403, 429} && remote.Some? && remote.value != [] ==>
      Message(ErrorForStatus(status, remote)) == remote.value
    ensures status !in {401, 402, 403, 429} && (remote.None? || remote.value == []) ==>
      var m := Message(ErrorForStatus(status, remote));
      StartsWith(m, "API error: ") && AllDigits(m[11..]) && DigitsValue(m[11..]) == status
  {
    if status !in {401, 402, 403, 429} && (remote.None? || remote.value == []) {
      var m := Message(ErrorForStatus(status, remote));
      assert m[11..] == Decimal(status);
      DecimalRoundTrip(status);
    }
  }

  /** `calculateCost` (ai.js:83-85) with exact arithmetic: $0.15 per million input tokens and $0.60 per million output tokens. */
  function CalculateCost(inputTokens: nat, outputTokens: nat): real {
    (inputTokens as real) * 0.15 / 1000000.0 + (outputTokens as real) * 0.60 / 1000000.0
  }

  /** The cost of two batches of tokens is the sum of their costs, and no tokens cost nothing. */
  lemma CostAdditive(i1: nat, o1: nat, i2: nat, o2: nat)
    ensures CalculateCost(i1 + i2, o1 + o2) == CalculateCost(i1, o1) + CalculateCost(i2, o2)
    ensures CalculateCost(0, 0) == 0.0
    ensures CalculateCost(i1, o1) >= 0.0
  {
  }

  datatype TokenCounts = TokenCounts(input: nat, output: nat, total: nat)

  /** `getSessionStats()`. */
  datatype SessionStats = SessionStats(tokens: TokenCounts, cost: real)

  /** The `usage` of a result: the counts taken from the reply and the cost of this request. */
  datatype CallUsage = CallUsage(inputTokens: nat, outputTokens: nat, totalTokens: nat, cost: real)

  /** What `callOpenAI` resolves to. */
  datatype CallResult = CallResult(text: string, usage: CallUsage, session: SessionStats)

  /** `usage.x || 0` for the three counts, and their cost (ai.js:147-151). */
  function UsageOf(u: ReplyUsage): CallUsage {
    var i, o := u.promptTokens.GetOr(0), u.completionTokens.GetOr(0);
    CallUsage(i, o, u.totalTokens.GetOr(0), CalculateCost(i, o))
  }

  /** The session after one successful call (ai.js:153-156). */
  function Record(s: SessionStats, u: CallUsage): SessionStats {
    SessionStats(TokenCounts(s.tokens.input + u.inputTokens, s.tokens.output + u.outputTokens,
                             s.tokens.total + u.totalTokens), s.cost + u.cost)
  }

  /** The session cost is the price of the session's input and output tokens. */
  predicate Priced(s: SessionStats) {
    s.cost == CalculateCost(s.tokens.input, s.tokens.output)
  }

  /**
   * `callOpenAI(systemPrompt, userPrompt)` (ai.js:100-168) on the session `s`: no request
   * without a key; a reply that is not ok or has no text is an error; otherwise the trimmed
   * text, the usage, and the session with the usage recorded.
   */
  function Call(s: SessionStats, settings: Settings, systemPrompt: string, userPrompt: string,
                service: ChatRequest -> ChatReply): Result<CallResult, AiError>
  {
    var apiKey := settings.apiKey;
    if apiKey == [] then Failure(MissingKey)
    else
      var reply := service(ChatRequest(apiKey, systemPrompt, userPrompt));
      if !Ok(reply.status) then Failure(ErrorForStatus(reply.status, reply.errorMessage))
      else if reply.text.None? || reply.text.value == [] then Failure(EmptyResponse)
      else
        var u := UsageOf(reply.usage);
        Success(CallResult(Trim(reply.text.value), u, Record(s, u)))
  }

  /** Without a key no request is made: the outcome is the same whatever the service would answer. */
  lemma NoKeyNoRequest(s: SessionStats, settings: Settings, sp: string, up: string,
                       f: ChatRequest -> ChatReply, g: ChatRequest -> ChatReply)
    requires settings.apiKey == []
    ensures Call(s, settings, sp, up, f) == Call(s, settings, sp, up, g) == Failure(MissingKey)
  {
  }

  /**
   * A call succeeds exactly when there is a key, the reply is ok and its text is not empty; the
   * text returned is the trimmed reply, and the usage returned is exactly what the session gains.
   */
  lemma CallOutcome(s: SessionStats, settings: Settings, sp: string, up: string, service: ChatRequest -> ChatReply)
    ensures var reply := service(ChatRequest(settings.apiKey, sp, up));
      var r := Call(s, settings, sp, up, service);
      && (r.Success? <==> settings.apiKey != [] && Ok(reply.status) && reply.text.Some? && reply.text.value != [])
      && (settings.apiKey != [] && !Ok(reply.status) ==> r == Failure(ErrorForStatus(reply.status, reply.errorMessage)))
      && (settings.apiKey != [] && Ok(reply.status) && (reply.text.None? || reply.text.value == []) ==> r == Failure(EmptyResponse))
      && (r.Success? ==>
            && r.value.text == Trim(reply.text.value)
            && r.value.usage.inputTokens == reply.usage.promptTokens.GetOr(0)
            && r.value.usage.outputTokens == reply.usage.completionTokens.GetOr(0)
            && r.value.usage.totalTokens == reply.usage.totalTokens.GetOr(0)
            && r.value.session.tokens.input == s.tokens.input + r.value.usage.inputTokens
            && r.value.session.tokens.output == s.tokens.output + r.value.usage.outputTokens
            && r.value.session.tokens.total == s.tokens.total + r.value.usage.totalTokens
            && r.value.session.cost == s.cost + r.value.usage.cost)
  {
  }

  /** Recording a priced usage keeps the session priced. */
  lemma RecordKeepsPriced(s: SessionStats, u: CallUsage)
    requires Priced(s) && u.cost == CalculateCost(u.inputTokens, u.outputTokens)
    ensures Priced(Record(s, u))
  {
    CostAdditive(s.tokens.input, s.tokens.output, u.inputTokens, u.outputTokens);
  }

  /** A successful call keeps the session cost equal to the price of the session's tokens. */
  lemma CallKeepsPriced(s: SessionStats, settings: Settings, sp: string, up: string, service: ChatRequest -> ChatReply)
    requires Priced(s)
    ensures var r := Call(s, settings, sp, up, service);
      r.Success? ==> Priced(r.value.session)
  {
    var r := Call(s, settings, sp, up, service);
    if r.Success? {
      RecordKeepsPriced(s, r.value.usage);
    }
  }

  /**
   * `executeAiAction(actionId, userInput)` (ai.js:173-181) as evidently intended: an unknown id
   * is an error, otherwise the action's system prompt and built prompt go to the call.
   */
  function Execute(s: SessionStats, settings: Settings, key: string, userInput: string,
                   service: ChatRequest -> ChatReply): Result<CallResult, AiError>
  {
    match ActionFor(key)
    case None => Failure(UnknownAction)
    case Some(a) => Call(s, settings, Config(a).systemPrompt, BuildPrompt(a, userInput), service)
  }

  /** What `executeAiAction` throws as written: one of its own errors, or a `TypeError`. */
  datatype Thrown = Error(error: AiError) | TypeError

  /**
   * `executeAiAction` as written: an inherited property such as `toString` passes the `!action`
   * test, and calling its missing `buildPrompt` throws a `TypeError`.
   */
  function ExecuteAsWritten(s: SessionStats, settings: Settings, key: string, userInput: string,
                            service: ChatRequest -> ChatReply): Result<CallResult, Thrown>
  {
    match GetAiActionAsWritten(key)
    case NoProperty => Failure(Error(UnknownAction))
    case InheritedProperty(_) => Failure(TypeError)
    case OwnAction(a) =>
      match Call(s, settings, Config(a).systemPrompt, BuildPrompt(a, userInput), service)
      case Success(v) => Success(v)
      case Failure(e) => Failure(Error(e))
  }

  /** For an inherited name the call as written fails with a `TypeError` instead of "Unknown AI action.". */
  lemma ExecuteInheritedKey(s: SessionStats, settings: Settings, userInput: string, service: ChatRequest -> ChatReply)
    ensures ExecuteAsWritten(s, settings, "constructor", userInput, service) == Failure(TypeError)
    ensures Execute(s, settings, "constructor", userInput, service) == Failure(UnknownAction)
  {
  }

  /** For every other id the two agree. */
  lemma ExecuteAgrees(s: SessionStats, settings: Settings, key: string, userInput: string, service: ChatRequest -> ChatReply)
    requires key !in InheritedKeys
    ensures ExecuteAsWritten(s, settings, key, userInput, service) ==
      match Execute(s, settings, key, userInput, service)
      case Success(v) => Success(v)
      case Failure(e) => Failure(Error(e))
  {
  }

  /** An id outside the registry is refused before any request; a known one sends its system prompt and built prompt. */
  lemma ExecuteDispatch(s: SessionStats, settings: Settings, key: string, userInput: string, service: ChatRequest -> ChatReply)
    ensures ActionFor(key).None? ==> Execute(s, settings, key, userInput, service) == Failure(UnknownAction)
    ensures forall a: ActionId :: Key(a) == key ==>
      Execute(s, settings, key, userInput, service) ==
        Call(s, settings, Config(a).systemPrompt, PromptPrefix(a) + userInput + PromptSuffix(a), service)
  {
    forall a: ActionId | Key(a) == key
      ensures Execute(s, settings, key, userInput, service) ==
        Call(s, settings, Config(a).systemPrompt, PromptPrefix(a) + userInput + PromptSuffix(a), service)
    {
      ActionForKeys(a, key);
    }
  }

  // ----- The session ledger -----

  /**
   * The module state `sessionTokens` and `sessionCost` (ai.js:18-19) together with the calls
   * that update it. The API key is read from the store, as `getSettings()` does.
   */
  class Ledger {
    var input: nat
    var output: nat
    var total: nat
    var cost: real

    constructor ()
      ensures Stats() == SessionStats(TokenCounts(0, 0, 0), 0.0)
      ensures Priced(Stats())
    {
      input, output, total, cost := 0, 0, 0, 0.0;
    }

    /** `getSessionStats()`. */
    function Stats(): SessionStats
      reads this
    {
      SessionStats(TokenCounts(input, output, total), cost)
    }

    /**
     * `callOpenAI(systemPrompt, userPrompt)`: the outcome is `Call` on the session before the
     * call; a failed call leaves the session as it was, a successful one records its usage.
     */
    method CallOpenAI(store: Store, systemPrompt: string, userPrompt: string, service: ChatRequest -> ChatReply)
      returns (r: Result<CallResult, AiError>)
      modifies this
      ensures r == Call(old(Stats()), store.GetSettings(), systemPrompt, userPrompt, service)
      ensures Stats() == if r.Success? then r.value.session else old(Stats())
      ensures old(Priced(Stats())) ==> Priced(Stats())
    {
      ghost var before := Stats();
      var settings := store.GetSettings();
      var apiKey := settings.apiKey;
      if apiKey == [] {
        return Failure(MissingKey);
      }
      var reply := service(ChatRequest(apiKey, systemPrompt, userPrompt));
      if !Ok(reply.status) {
        return Failure(ErrorForStatus(reply.status, reply.errorMessage));
      }
      if reply.text.None? || reply.text.value == [] {
        return Failure(EmptyResponse);
      }
      var inputTokens := reply.usage.promptTokens.GetOr(0);
      var outputTokens := reply.usage.completionTokens.GetOr(0);
      var totalTokens := reply.usage.totalTokens.GetOr(0);
      var requestCost := CalculateCost(inputTokens, outputTokens);
      var usage := CallUsage(inputTokens, outputTokens, totalTokens, requestCost);
      assert usage == UsageOf(reply.usage);
      input := input + inputTokens;
      output := output + outputTokens;
      total := total + totalTokens;
      cost := cost + requestCost;
      assert Stats() == Record(before, usage);
      r := Success(CallResult(Trim(reply.text.value), usage, Stats()));
      if Priced(before) {
        RecordKeepsPriced(before, usage);
      }
    }

    /** `executeAiAction(actionId, userInput)`: `Execute` on the session before the call. */
    method ExecuteAiAction(store: Store, key: string, userInput: string, service: ChatRequest -> ChatReply)
      returns (r: Result<CallResult, AiError>)
      modifies this
      ensures r == Execute(old(Stats()), store.GetSettings(), key, userInput, service)
      ensures Stats() == if r.Success? then r.value.session else old(Stats())
      ensures old(Priced(Stats())) ==> Priced(Stats())
    {
      var action := ActionFor(key);
      if action.None? {
        return Failure(UnknownAction);
      }
      var a := action.value;
      var userPrompt := BuildPrompt(a, userInput);
      r := CallOpenAI(store, Config(a).systemPrompt, userPrompt, service);
    }
  }

  // ----- A session of calls -----

  function Plus(u: CallUsage, v: CallUsage): CallUsage {
    CallUsage(u.inputTokens + v.inputTokens, u.outputTokens + v.outputTokens,
              u.totalTokens + v.totalTokens, u.cost + v.cost)
  }

  /** The usage of a series of successful calls added up. */
  function Totals(us: seq<CallUsage>): CallUsage {
    if us == [] then CallUsage(0, 0, 0, 0.0) else Plus(us[0], Totals(us[1..]))
  }

  /** The session after recording the calls one after the other. */
  function RecordAll(s: SessionStats, us: seq<CallUsage>): SessionStats
    decreases |us|
  {
    if us == [] then s else RecordAll(Record(s, us[0]), us[1..])
  }

  /** The session after a series of calls is the starting session plus the totals of the calls. */
  lemma {:induction false} RecordAllTotals(s: SessionStats, us: seq<CallUsage>)
    ensures RecordAll(s, us) == Record(s, Totals(us))
    decreases |us|
  {
    if us != [] {
      RecordAllTotals(Record(s, us[0]), us[1..]);
    }
  }

  lemma {:induction false} TotalsAppend(a: seq<CallUsage>, b: seq<CallUsage>)
    ensures Totals(a + b) == Plus(Totals(a), Totals(b))
  {
    if a == [] {
      assert a + b == b;
      var t := Totals(b);
      assert Plus(Totals(a), t) == CallUsage(t.inputTokens, t.outputTokens, t.totalTokens, t.cost) == t;
    } else {
      assert (a + b)[0] == a[0];
      assert (a + b)[1..] == a[1..] + b;
      assert Totals(a + b) == Plus(a[0], Totals(a[1..] + b));
      TotalsAppend(a[1..], b);
    }
  }

  /** The totals do not depend on the order of the calls. */
  lemma {:induction false} TotalsPermutation(a: seq<CallUsage>, b: seq<CallUsage>)
    requires multiset(a) == multiset(b)
    ensures Totals(a) == Totals(b)
    decreases |a|
  {
    if a == [] {
      assert |b| == |multiset(b)| == 0;
    } else {
      var x := a[0];
      assert x in multiset(b);
      var k :| 0 <= k < |b| && b[k] == x;
      var rest := b[..k] + b[k + 1..];
      RemoveOne(b, k);
      TotalsWithout(b, k);
      DropFirst(a);
      assert multiset(a[1..]) == multiset(rest);
      TotalsPermutation(a[1..], rest);
    }
  }

  /** Taking the call at index `k` out of a series removes one copy of it. */
  lemma RemoveOne(b: seq<CallUsage>, k: nat)
    requires k < |b|
    ensures multiset(b[..k] + b[k + 1..]) == multiset(b) - multiset{b[k]}
  {
    assert b == b[..k] + [b[k]] + b[k + 1..];
  }

  lemma DropFirst(a: seq<CallUsage>)
    requires a != []
    ensures multiset(a[1..]) == multiset(a) - multiset{a[0]}
  {
    assert a == [a[0]] + a[1..];
  }

  /** The totals of a series are the usage of the call at index `k` plus the totals of the others. */
  lemma TotalsWithout(b: seq<CallUsage>, k: nat)
    requires k < |b|
    ensures Totals(b) == Plus(b[k], Totals(b[..k] + b[k + 1..]))
  {
    var l, x, r := b[..k], b[k], b[k + 1..];
    SplitAround(b, k);
    TotalsAppend(l, [x] + r);
    TotalsCons(x, r);
    TotalsAppend(l, r);
  }

  lemma SplitAround(b: seq<CallUsage>, k: nat)
    requires k < |b|
    ensures b == b[..k] + ([b[k]] + b[k + 1..])
  {
  }

  lemma TotalsCons(x: CallUsage, r: seq<CallUsage>)
    ensures Totals([x] + r) == Plus(x, Totals(r))
  {
    assert ([x] + r)[1..] == r;
  }

  /** The session reached by a series of successful calls is the same in whatever order they complete. */
  lemma SessionOrderIndependent(s: SessionStats, a: seq<CallUsage>, b: seq<CallUsage>)
    requires multiset(a) == multiset(b)
    ensures RecordAll(s, a) == RecordAll(s, b)
  {
    RecordAllTotals(s, a);
    RecordAllTotals(s, b);
    TotalsPermutation(a, b);
  }

  /** A series of priced calls keeps a priced session priced. */
  lemma {:induction false} RecordAllKeepsPriced(s: SessionStats, us: seq<CallUsage>)
    requires Priced(s)
    requires forall i :: 0 <= i < |us| ==> us[i].cost == CalculateCost(us[i].inputTokens, us[i].outputTokens)
    ensures Priced(RecordAll(s, us))
    decreases |us|
  {
    if us != [] {
      RecordKeepsPriced(s, us[0]);
      RecordAllKeepsPriced(Record(s, us[0]), us[1..]);
    }
  }
}
