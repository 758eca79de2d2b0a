/**
 * The tool-calling conversation engine (llm/openai_client.py): the conversation log, the
 * registered tools, the retrying model call and the `send` loop that runs tool calls until the
 * model answers. The remote model is a scripted oracle; sleeping is recorded in a ghost log.
 */
module LlmClient {
  import opened Wrappers
  import opened Json
  import opened World

  /** `max_retries`: attempts per model call. */
  const MaxRetries := 3

  /** `base_delay`, in seconds; attempt `k` that fails is followed by a sleep of `BaseDelay * 2^k`. */
  const BaseDelay := 1

  /** What `send` answers when the final response holds no assistant message. */
  const FallbackAnswer := "I'm sorry, I couldn't process your request properly."

  /** The error of a call made after the script has run out: the model cannot be reached. */
  const Unreachable := "the model could not be reached"

  /** The error `json.loads` raises on arguments that are not valid JSON. */
  const MalformedArguments := "tool-call arguments are not valid JSON"

  /**
   * One function call the model asks for, with its arguments already decoded, or `None` when the
   * argument text is not valid JSON.
   */
  datatype ToolCall = ToolCall(id: string, name: string, arguments: Option<Json>)

  /** An entry of the conversation log, by its "role". An assistant's "tool_calls" key is present exactly when the list is non-empty. */
  datatype Message =
    | System(text: string)
    | User(text: string)
    | Assistant(content: Option<string>, toolCalls: seq<ToolCall>)
    | Tool(toolCallId: string, result: StrValue)

  /** One choice of a chat completion. */
  datatype Choice = Choice(content: Option<string>, toolCalls: seq<ToolCall>)

  /** The remote model's answer to one request: its choices, or the exception the request raised. */
  datatype Reply = Replied(choices: seq<Choice>) | Failed(error: string)

  /** The entry of the tool list for one registered function. */
  datatype ToolSchema = ToolSchema(name: string, description: string, parameters: Json)

  /** What one request carries: the messages, and the tool list, left out when it is empty. */
  datatype Request = Request(messages: seq<Message>, tools: Option<seq<ToolSchema>>)

  /** What a tool function gives back: a `str`, some other JSON-encodable value, or an exception. */
  datatype ToolValue = PyStr(s: StrValue) | PyValue(doc: Json)
  datatype ToolOutcome = Returned(value: ToolValue) | Raised(message: string)

  /** A registered tool: called with the decoded arguments, and seeing the clock and randomness of that call. */
  type ToolFn = (Json, Ambient) -> ToolOutcome

  /** How `send` ends: with the final answer, which may be `None`, or with the exception that escapes it. */
  datatype SendOutcome = Answered(answer: Option<string>) | Aborted(error: string)

  /** The configuration steps a client goes through, in order. */
  datatype Setting = PromptSet(instructions: string) | ToolRegistered(name: string) | LogCleared

  // ---- One model call ----

  /** The messages one call sends: the log, behind the system prompt unless the prompt is empty or the log already opens with a system message. */
  function WithInstructions(instructions: string, messages: seq<Message>): seq<Message> {
    if instructions != "" && (messages == [] || !messages[0].System?) then [System(instructions)] + messages
    else messages
  }

  /** The log is sent whole and last; a non-empty prompt always puts a system message first, and one is added only when none is there. */
  lemma WithInstructionsShape(instructions: string, messages: seq<Message>)
    ensures var r := WithInstructions(instructions, messages);
      && |r| - |messages| in {0, 1}
      && r[|r| - |messages|..] == messages
      && (instructions != "" ==> r != [] && r[0].System?)
      && (|r| == |messages| + 1 <==> instructions != "" && (messages == [] || !messages[0].System?))
      && (|r| == |messages| + 1 ==> r[0] == System(instructions))
  {
  }

  function RequestFor(instructions: string, tools: seq<ToolSchema>, messages: seq<Message>): Request {
    Request(WithInstructions(instructions, messages), if tools == [] then None else Some(tools))
  }

  /** The assistant messages a completion turns into, one per choice. */
  function Converted(choices: seq<Choice>): seq<Message> {
    seq(|choices|, k requires 0 <= k < |choices| => Assistant(choices[k].content, choices[k].toolCalls))
  }

  predicate AllAssistant(response: seq<Message>) {
    forall k | 0 <= k < |response| :: response[k].Assistant?
  }

  /** The reply to the `k`-th request from now: the script's entry, or a failure once the script is used up. */
  function Nth(replies: seq<Reply>, k: nat): Reply {
    if k < |replies| then replies[k] else Failed(Unreachable)
  }

  function Pow2(n: nat): nat {
    if n == 0 then 1 else 2 * Pow2(n - 1)
  }

  function Min(a: int, b: int): int {
    if a <= b then a else b
  }

  /** The result of the attempts of one model call: its outcome, what is left of the script, the sleeps and the number of requests. */
  datatype Attempts = Attempts(outcome: Result<seq<Message>, string>, rest: seq<Reply>, sleeps: seq<int>, count: nat)

  /** `_call_model` from attempt `attempt` on: a failed attempt sleeps and tries again, except the last, which re-raises. */
  function CallFrom(replies: seq<Reply>, attempt: nat): (a: Attempts)
    requires attempt < MaxRetries
    ensures 1 <= a.count <= MaxRetries - attempt
    ensures |a.sleeps| == a.count - 1
    ensures |a.rest| <= |replies|
    ensures a.outcome.Success? ==> |a.rest| < |replies| && AllAssistant(a.outcome.value)
    decreases MaxRetries - attempt
  {
    var reply := Nth(replies, 0);
    var rest := if replies == [] then [] else replies[1..];
    if reply.Replied? then Attempts(Success(Converted(reply.choices)), rest, [], 1)
    else if attempt < MaxRetries - 1 then
      var later := CallFrom(rest, attempt + 1);
      Attempts(later.outcome, later.rest, [BaseDelay * Pow2(attempt)] + later.sleeps, later.count + 1)
    else Attempts(Failure(reply.error), rest, [], 1)
  }

  /** The requests of one call use up the first `count` replies of the script. */
  lemma {:induction false} AttemptsConsume(replies: seq<Reply>, attempt: nat)
    requires attempt < MaxRetries
    ensures var a := CallFrom(replies, attempt);
      a.rest == replies[Min(a.count, |replies|)..]
    decreases MaxRetries - attempt
  {
    var reply := Nth(replies, 0);
    if !reply.Replied? && attempt < MaxRetries - 1 && replies != [] {
      var rest := replies[1..];
      AttemptsConsume(rest, attempt + 1);
      var later := CallFrom(rest, attempt + 1);
      assert rest[Min(later.count, |rest|)..] == replies[Min(later.count + 1, |replies|)..];
    }
  }

  /** Every request of one call but the last failed. */
  lemma {:induction false} AttemptsRetryOnFailure(replies: seq<Reply>, attempt: nat)
    requires attempt < MaxRetries
    ensures var a := CallFrom(replies, attempt);
      forall k | 0 <= k < a.count - 1 :: !Nth(replies, k).Replied?
    decreases MaxRetries - attempt
  {
    var reply := Nth(replies, 0);
    var rest := if replies == [] then [] else replies[1..];
    if !reply.Replied? && attempt < MaxRetries - 1 {
      AttemptsRetryOnFailure(rest, attempt + 1);
      var later := CallFrom(rest, attempt + 1);
      forall k | 0 <= k < later.count ensures Nth(rest, k) == Nth(replies, k + 1) {
      }
    }
  }

  /**
   * A call succeeds exactly when its last request was answered, with that answer; it fails only
   * after its last attempt, with that attempt's error.
   */
  lemma {:induction false} AttemptsSpec(replies: seq<Reply>, attempt: nat)
    requires attempt < MaxRetries
    ensures var a := CallFrom(replies, attempt);
      && (a.outcome.Success? <==> Nth(replies, a.count - 1).Replied?)
      && (a.outcome.Success? ==> a.outcome.value == Converted(Nth(replies, a.count - 1).choices))
      && (a.outcome.Failure? ==> a.count == MaxRetries - attempt && a.outcome.error == Nth(replies, a.count - 1).error)
    decreases MaxRetries - attempt
  {
    var reply := Nth(replies, 0);
    var rest := if replies == [] then [] else replies[1..];
    if !reply.Replied? && attempt < MaxRetries - 1 {
      AttemptsSpec(rest, attempt + 1);
      var later := CallFrom(rest, attempt + 1);
      assert Nth(rest, later.count - 1) == Nth(replies, later.count);
    }
  }

  /** Each failure but the last is followed by a sleep of `BaseDelay * 2^k` before attempt `k + 1`. */
  lemma {:induction false} AttemptsSleep(replies: seq<Reply>, attempt: nat)
    requires attempt < MaxRetries
    ensures var a := CallFrom(replies, attempt);
      forall k | 0 <= k < |a.sleeps| :: a.sleeps[k] == BaseDelay * Pow2(attempt + k)
    decreases MaxRetries - attempt
  {
    var reply := Nth(replies, 0);
    var rest := if replies == [] then [] else replies[1..];
    if !reply.Replied? && attempt < MaxRetries - 1 {
      AttemptsSleep(rest, attempt + 1);
    }
  }

  /** At most three requests per call, with sleeps of 1 and then 2 seconds between them. */
  lemma RetrySchedule(replies: seq<Reply>)
    ensures var a := CallFrom(replies, 0);
      && a.count <= 3
      && a.sleeps == [1, 2][..a.count - 1]
      && (a.outcome.Failure? ==> a.count == 3 && a.sleeps == [1, 2])
  {
    AttemptsSleep(replies, 0);
    var a := CallFrom(replies, 0);
    if a.count >= 2 {
      assert a.sleeps[0] == 1;
    }
    if a.count == 3 {
      assert a.sleeps[1] == BaseDelay * Pow2(1) == 2;
    }
  }

  // ---- Running the tool calls ----

  function CallsOf(m: Message): seq<ToolCall> {
    if m.Assistant? then m.toolCalls else []
  }

  /** The tool calls of a response, in the order its assistant messages list them. */
  function CollectCalls(response: seq<Message>): seq<ToolCall> {
    if response == [] then []
    else CollectCalls(response[..|response| - 1]) + CallsOf(response[|response| - 1])
  }

  /** A response leaves nothing to run exactly when none of its assistant messages carries tool calls. */
  lemma {:induction false} NoCallsIffNoneCarried(response: seq<Message>)
    ensures CollectCalls(response) == [] <==> forall k | 0 <= k < |response| :: CallsOf(response[k]) == []
  {
    if response != [] {
      var n := |response| - 1;
      NoCallsIffNoneCarried(response[..n]);
      assert forall k | 0 <= k < n :: response[..n][k] == response[k];
    }
  }

  /** The content of the tool turn for one call whose arguments decoded to `args`. */
  function ToolContent(registry: map<string, ToolFn>, name: string, args: Json, amb: Ambient): StrValue {
    if name !in registry then Chars("Tool '" + name + "' not found")
    else match registry[name](args, amb)
      case Raised(m) => Chars("Error executing tool '" + name + "': " + m)
      case Returned(PyStr(s)) => s
      case Returned(PyValue(doc)) => JsonOf(doc)
  }

  /** The tool turn for one call, or `None` when its arguments do not decode. */
  function ToolTurn(registry: map<string, ToolFn>, call: ToolCall, env: ToolCall -> Ambient): Option<Message> {
    if call.arguments.None? then None
    else Some(Tool(call.id, ToolContent(registry, call.name, call.arguments.value, env(call))))
  }

  /** `_execute_tools`: one tool turn per call in order, or `None` when some call's arguments do not decode. */
  function ToolTurns(registry: map<string, ToolFn>, calls: seq<ToolCall>, env: ToolCall -> Ambient): Option<seq<Message>> {
    if calls == [] then Some([])
    else
      match ToolTurns(registry, calls[..|calls| - 1], env)
      case None => None
      case Some(done) =>
        match ToolTurn(registry, calls[|calls| - 1], env)
        case None => None
        case Some(turn) => Some(done + [turn])
  }

  /**
   * N calls give exactly N tool turns, the k-th answering the k-th call under its id and computed
   * from that call alone; the whole batch fails exactly when some call's arguments do not decode.
   */
  lemma {:induction false} ToolTurnsShape(registry: map<string, ToolFn>, calls: seq<ToolCall>, env: ToolCall -> Ambient)
    ensures ToolTurns(registry, calls, env).Some? <==> forall k | 0 <= k < |calls| :: calls[k].arguments.Some?
    ensures var r := ToolTurns(registry, calls, env);
      r.Some? ==> |r.value| == |calls| && forall k | 0 <= k < |calls| ::
        r.value[k] == ToolTurn(registry, calls[k], env).value && r.value[k].Tool? && r.value[k].toolCallId == calls[k].id
  {
    if calls != [] {
      var n := |calls| - 1;
      ToolTurnsShape(registry, calls[..n], env);
      assert forall k | 0 <= k < n :: calls[..n][k] == calls[k];
    }
  }

  /** What a single call's turn says: a missing tool, an exception, a `str` passed on as it is, or any other value encoded as JSON. */
  lemma ToolContentCases(registry: map<string, ToolFn>, call: ToolCall, env: ToolCall -> Ambient)
    requires call.arguments.Some?
    ensures var c := ToolTurn(registry, call, env).value.result;
      && (call.name !in registry ==> c == Chars("Tool '" + call.name + "' not found"))
      && (call.name in registry ==>
            var out := registry[call.name](call.arguments.value, env(call));
            && (out.Raised? ==> c == Chars("Error executing tool '" + call.name + "': " + out.message))
            && (out.Returned? && out.value.PyStr? ==> c == out.value.s)
            && (out.Returned? && out.value.PyValue? ==> c == JsonOf(out.value.doc)))
  {
  }

  /** Once a prefix of the calls fails to decode, so does every longer one. */
  lemma {:induction false} PoisonedPrefix(registry: map<string, ToolFn>, calls: seq<ToolCall>, n: nat, env: ToolCall -> Ambient)
    requires 0 < n <= |calls| && ToolTurns(registry, calls[..n], env).None?
    ensures ToolTurns(registry, calls, env).None?
    decreases |calls| - n
  {
    if n < |calls| {
      assert calls[..n + 1][..n] == calls[..n];
      PoisonedPrefix(registry, calls, n + 1, env);
    } else {
      assert calls[..n] == calls;
    }
  }


  // ---- The send loop ----

  /** The final answer: the content of the last assistant message, or the fallback text when there is none. */
  function FinalAnswer(response: seq<Message>): Option<string> {
    if response == [] then Some(FallbackAnswer)
    else if response[|response| - 1].Assistant? then response[|response| - 1].content
    else FinalAnswer(response[..|response| - 1])
  }

  /** On a converted response that is the last message's content, which may be `None`; the fallback comes only from an empty response. */
  lemma FinalAnswerOfResponse(response: seq<Message>)
    requires AllAssistant(response)
    ensures response == [] ==> FinalAnswer(response) == Some(FallbackAnswer)
    ensures response != [] ==> FinalAnswer(response) == response[|response| - 1].content
  {
  }

  /** One round of `send`: the model's response and the tool turns that answered it. */
  datatype Round = Round(response: seq<Message>, results: seq<Message>)

  /** A round adds assistant messages and then tool turns, nothing else. */
  predicate AppendsReplies(r: Round) {
    AllAssistant(r.response) && forall k | 0 <= k < |r.results| :: r.results[k].Tool?
  }

  /** One round taken from the script: the model call's attempts, the round, and how `send` ends if it ends here. */
  datatype Step = Step(attempts: Attempts, round: Round, ending: Option<SendOutcome>)

  /**
   * One round of `send`: call the model, and stop when its messages carry no tool calls; otherwise
   * run the calls. A model call that fails for good, or arguments that do not decode, end `send`
   * with an exception.
   */
  function RoundFrom(registry: map<string, ToolFn>, replies: seq<Reply>, env: ToolCall -> Ambient): (s: Step)
    ensures s.attempts == CallFrom(replies, 0)
    ensures s.ending.None? ==> |s.attempts.rest| < |replies|
  {
    var a := CallFrom(replies, 0);
    match a.outcome
    case Failure(e) => Step(a, Round([], []), Some(Aborted(e)))
    case Success(response) =>
      var calls := CollectCalls(response);
      if calls == [] then Step(a, Round(response, []), Some(Answered(FinalAnswer(response))))
      else
        match ToolTurns(registry, calls, env)
        case None => Step(a, Round(response, []), Some(Aborted(MalformedArguments)))
        case Some(results) => Step(a, Round(response, results), None)
  }

  /**
   * How a round goes: it goes on exactly when the response carried tool calls whose turns were all
   * made, and those turns are the round's results; it answers exactly when the response carried
   * none, with the response's final answer; a failed model call leaves the round empty.
   */
  lemma RoundFromCases(registry: map<string, ToolFn>, replies: seq<Reply>, env: ToolCall -> Ambient)
    ensures var s := RoundFrom(registry, replies, env);
      && AppendsReplies(s.round)
      && (s.attempts.outcome.Failure? ==> s.ending == Some(Aborted(s.attempts.outcome.error)) && s.round == Round([], []))
      && (s.attempts.outcome.Success? ==> s.round.response == s.attempts.outcome.value)
      && (s.ending.None? <==>
            s.attempts.outcome.Success? && CollectCalls(s.round.response) != []
            && ToolTurns(registry, CollectCalls(s.round.response), env) == Some(s.round.results))
      && (s.ending.Some? && s.ending.value.Answered? <==> s.attempts.outcome.Success? && CollectCalls(s.round.response) == [])
      && (s.ending.Some? && s.ending.value.Answered? ==> s.round.results == [] && s.ending.value.answer == FinalAnswer(s.round.response))
  {
    var s := RoundFrom(registry, replies, env);
    if s.attempts.outcome.Success? {
      var calls := CollectCalls(s.round.response);
      if calls != [] && ToolTurns(registry, calls, env).Some? {
        ToolTurnsShape(registry, calls, env);
      }
    }
  }

  /** What `send` does, from the log after the user turn: the outcome, the new log, the rest of the script, the sleeps, the requests and the rounds. */
  datatype Conversation = Conversation(outcome: SendOutcome, log: seq<Message>, rest: seq<Reply>, sleeps: seq<int>, sent: seq<Request>, rounds: seq<Round>)

  /** `n` copies of `x`. */
  function Repeat<T>(x: T, n: nat): seq<T> {
    if n == 0 then [] else Repeat(x, n - 1) + [x]
  }

  /** The rounds of `send`, each appending the model's messages and then the tool turns, until one ends it. */
  function Converse(log: seq<Message>, instructions: string, tools: seq<ToolSchema>, registry: map<string, ToolFn>,
                    replies: seq<Reply>, env: ToolCall -> Ambient): Conversation
    decreases |replies|
  {
    var s := RoundFrom(registry, replies, env);
    var next := log + s.round.response + s.round.results;
    var sent := Repeat(RequestFor(instructions, tools, log), s.attempts.count);
    var rounds := if s.attempts.outcome.Failure? then [] else [s.round];
    if s.ending.Some? then Conversation(s.ending.value, next, s.attempts.rest, s.attempts.sleeps, sent, rounds)
    else
      var later := Converse(next, instructions, tools, registry, s.attempts.rest, env);
      Conversation(later.outcome, later.log, later.rest, s.attempts.sleeps + later.sleeps, sent + later.sent, [s.round] + later.rounds)
  }

  function Flatten(rounds: seq<Round>): seq<Message> {
    if rounds == [] then [] else rounds[0].response + rounds[0].results + Flatten(rounds[1..])
  }

  /** The log only grows: it ends as the starting log followed by each round's response and, right after it, that round's tool turns. */
  lemma {:induction false} ConverseAppendsRounds(log: seq<Message>, instructions: string, tools: seq<ToolSchema>,
                                                 registry: map<string, ToolFn>, replies: seq<Reply>, env: ToolCall -> Ambient)
    ensures var c := Converse(log, instructions, tools, registry, replies, env);
      c.log == log + Flatten(c.rounds)
    decreases |replies|
  {
    var s := RoundFrom(registry, replies, env);
    var next := log + s.round.response + s.round.results;
    ConverseUnfold(log, instructions, tools, registry, replies, env);
    ConverseRoundsUnfold(log, instructions, tools, registry, replies, env);
    if s.ending.None? {
      ConverseAppendsRounds(next, instructions, tools, registry, s.attempts.rest, env);
      var later := Converse(next, instructions, tools, registry, s.attempts.rest, env);
      FlattenCons(log, s.round, later.rounds);
    } else if s.attempts.outcome.Failure? {
      RoundFromCases(registry, replies, env);
      assert next == log;
    } else {
      FlattenCons(log, s.round, []);
    }
  }

  /** Flattening rounds behind a log: the first round's messages, then the rest. */
  lemma FlattenCons(log: seq<Message>, r: Round, rounds: seq<Round>)
    ensures log + Flatten([r] + rounds) == (log + r.response + r.results) + Flatten(rounds)
  {
    assert ([r] + rounds)[1..] == rounds;
  }

  /** Every round appends only assistant messages and then tool turns: no user or system message enters the log during `send`. */
  lemma {:induction false} ConverseRoundKinds(log: seq<Message>, instructions: string, tools: seq<ToolSchema>,
                                              registry: map<string, ToolFn>, replies: seq<Reply>, env: ToolCall -> Ambient)
    ensures var c := Converse(log, instructions, tools, registry, replies, env);
      forall k | 0 <= k < |c.rounds| :: AppendsReplies(c.rounds[k])
    decreases |replies|
  {
    var s := RoundFrom(registry, replies, env);
    RoundFromCases(registry, replies, env);
    if s.ending.None? {
      var next := log + s.round.response + s.round.results;
      ConverseRoundKinds(next, instructions, tools, registry, s.attempts.rest, env);
      assert forall k | 0 <= k < |Converse(next, instructions, tools, registry, s.attempts.rest, env).rounds| :: AppendsReplies(Converse(next, instructions, tools, registry, s.attempts.rest, env).rounds[k]);
      var later := Converse(next, instructions, tools, registry, s.attempts.rest, env);
      var rounds := [s.round] + later.rounds;
      assert Converse(log, instructions, tools, registry, replies, env).rounds == rounds;
      assert AppendsReplies(s.round);
      forall k | 0 <= k < |rounds| ensures AppendsReplies(rounds[k]) {
        if k > 0 {
          assert rounds[k] == later.rounds[k - 1];
        }
      }
    } else {
      var c := Converse(log, instructions, tools, registry, replies, env);
      assert c.rounds == [] || c.rounds == [s.round];
    }
  }

  /** Every round but the last had tool calls, and the tool turns appended after it answer them. */
  lemma {:induction false} ConverseRounds(log: seq<Message>, instructions: string, tools: seq<ToolSchema>,
                                          registry: map<string, ToolFn>, replies: seq<Reply>, env: ToolCall -> Ambient)
    ensures var c := Converse(log, instructions, tools, registry, replies, env);
      forall k | 0 <= k < |c.rounds| - 1 :: RanTools(registry, env, c.rounds[k])
    decreases |replies|
  {
    var s := RoundFrom(registry, replies, env);
    RoundFromCases(registry, replies, env);
    if s.ending.None? {
      var next := log + s.round.response + s.round.results;
      ConverseRounds(next, instructions, tools, registry, s.attempts.rest, env);
      var later := Converse(next, instructions, tools, registry, s.attempts.rest, env);
      assert forall k | 0 <= k < |Converse(next, instructions, tools, registry, s.attempts.rest, env).rounds| - 1 ::
        RanTools(registry, env, Converse(next, instructions, tools, registry, s.attempts.rest, env).rounds[k]);
      var rounds := [s.round] + later.rounds;
      assert Converse(log, instructions, tools, registry, replies, env).rounds == rounds;
      assert RanTools(registry, env, s.round);
      forall k | 0 <= k < |rounds| - 1 ensures RanTools(registry, env, rounds[k]) {
        if k > 0 {
          assert rounds[k] == later.rounds[k - 1];
        }
      }
    } else {
      var c := Converse(log, instructions, tools, registry, replies, env);
      assert |c.rounds| <= 1;
    }
  }

  /** A round whose response carried tool calls, answered by its results. */
  predicate RanTools(registry: map<string, ToolFn>, env: ToolCall -> Ambient, r: Round) {
    CollectCalls(r.response) != [] && ToolTurns(registry, CollectCalls(r.response), env) == Some(r.results)
  }

  /** `send` answers only after a round whose response carried no tool calls, and then with that response's final answer. */
  lemma {:induction false} ConverseAnswers(log: seq<Message>, instructions: string, tools: seq<ToolSchema>,
                                           registry: map<string, ToolFn>, replies: seq<Reply>, env: ToolCall -> Ambient)
    ensures var c := Converse(log, instructions, tools, registry, replies, env);
      c.outcome.Answered? ==> c.rounds != [] && Answers(c.rounds[|c.rounds| - 1], c.outcome.answer)
    decreases |replies|
  {
    var s := RoundFrom(registry, replies, env);
    ConverseRoundsUnfold(log, instructions, tools, registry, replies, env);
    var c := Converse(log, instructions, tools, registry, replies, env);
    if s.ending.None? {
      var next := log + s.round.response + s.round.results;
      ConverseAnswers(next, instructions, tools, registry, s.attempts.rest, env);
      var later := Converse(next, instructions, tools, registry, s.attempts.rest, env);
      assert later.outcome.Answered? ==> later.rounds != [] && Answers(later.rounds[|later.rounds| - 1], later.outcome.answer);
      if later.rounds != [] {
        assert c.rounds[|c.rounds| - 1] == later.rounds[|later.rounds| - 1];
      }
    } else {
      RoundFromCases(registry, replies, env);
    }
  }

  /** When `send` stops with an exception, the last round, if there was one, carried tool calls. */
  lemma {:induction false} ConverseAborts(log: seq<Message>, instructions: string, tools: seq<ToolSchema>,
                                          registry: map<string, ToolFn>, replies: seq<Reply>, env: ToolCall -> Ambient)
    ensures var c := Converse(log, instructions, tools, registry, replies, env);
      c.outcome.Aborted? && c.rounds != [] ==> CollectCalls(c.rounds[|c.rounds| - 1].response) != []
    decreases |replies|
  {
    var s := RoundFrom(registry, replies, env);
    ConverseRoundsUnfold(log, instructions, tools, registry, replies, env);
    var c := Converse(log, instructions, tools, registry, replies, env);
    if s.ending.None? {
      var next := log + s.round.response + s.round.results;
      ConverseAborts(next, instructions, tools, registry, s.attempts.rest, env);
      var later := Converse(next, instructions, tools, registry, s.attempts.rest, env);
      assert later.outcome.Aborted? && later.rounds != [] ==> CollectCalls(later.rounds[|later.rounds| - 1].response) != [];
      if later.rounds != [] {
        assert c.rounds[|c.rounds| - 1] == later.rounds[|later.rounds| - 1];
      } else {
        RoundFromCases(registry, replies, env);
      }
    } else {
      RoundFromCases(registry, replies, env);
    }
  }

  /** The rounds of `Converse`, one round unfolded. */
  lemma ConverseRoundsUnfold(log: seq<Message>, instructions: string, tools: seq<ToolSchema>, registry: map<string, ToolFn>,
                             replies: seq<Reply>, env: ToolCall -> Ambient)
    ensures var s := RoundFrom(registry, replies, env);
      var c := Converse(log, instructions, tools, registry, replies, env);
      var next := log + s.round.response + s.round.results;
      && (s.ending.Some? ==> c.outcome == s.ending.value && c.rounds == (if s.attempts.outcome.Failure? then [] else [s.round]))
      && (s.ending.None? ==>
            var later := Converse(next, instructions, tools, registry, s.attempts.rest, env);
            c.outcome == later.outcome && c.rounds == [s.round] + later.rounds)
  {
  }

  /** A round whose response carried no tool calls, and whose final answer is `answer`. */
  predicate Answers(r: Round, answer: Option<string>) {
    CollectCalls(r.response) == [] && r.results == [] && answer == FinalAnswer(r.response)
  }

  /**
   * The first request of `send` carries the log it started from, behind the system prompt, and every
   * request carries the tool list. Tool results feed back: every request carries the log as it stood
   * after some number of whole rounds, and each round was requested with the log the rounds before
   * it had left.
   */
  lemma {:induction false} ConverseRequests(log: seq<Message>, instructions: string, tools: seq<ToolSchema>,
                                            registry: map<string, ToolFn>, replies: seq<Reply>, env: ToolCall -> Ambient)
    ensures var c := Converse(log, instructions, tools, registry, replies, env);
      && 1 <= |c.sent|
      && c.sent[0] == RequestFor(instructions, tools, log)
      && (forall k | 0 <= k < |c.sent| :: c.sent[k].tools == (if tools == [] then None else Some(tools)))
      && (forall k | 0 <= k < |c.sent| ::
            exists j | 0 <= j <= |c.rounds| :: c.sent[k] == RequestFor(instructions, tools, log + Flatten(c.rounds[..j])))
      && (forall j | 0 <= j < |c.rounds| :: RequestFor(instructions, tools, log + Flatten(c.rounds[..j])) in c.sent)
    decreases |replies|
  {
    var s := RoundFrom(registry, replies, env);
    RepeatHolds(RequestFor(instructions, tools, log), s.attempts.count);
    if s.ending.None? {
      var next := log + s.round.response + s.round.results;
      ConverseRequests(next, instructions, tools, registry, s.attempts.rest, env);
    }
    ConverseRequestLogs(log, instructions, tools, registry, replies, env);
  }

  /** Every request in `sent` carries the log after some of `rounds`, and every round is requested with the log before it. */
  predicate RequestsFollow(sent: seq<Request>, rounds: seq<Round>, log: seq<Message>, instructions: string, tools: seq<ToolSchema>) {
    && (forall k | 0 <= k < |sent| ::
          exists j | 0 <= j <= |rounds| :: sent[k] == RequestFor(instructions, tools, log + Flatten(rounds[..j])))
    && (forall j | 0 <= j < |rounds| :: RequestFor(instructions, tools, log + Flatten(rounds[..j])) in sent)
  }

  /** The requests of `send` follow its rounds. */
  lemma {:induction false} ConverseRequestLogs(log: seq<Message>, instructions: string, tools: seq<ToolSchema>,
                                               registry: map<string, ToolFn>, replies: seq<Reply>, env: ToolCall -> Ambient)
    ensures var c := Converse(log, instructions, tools, registry, replies, env);
      RequestsFollow(c.sent, c.rounds, log, instructions, tools)
    decreases |replies|
  {
    var s := RoundFrom(registry, replies, env);
    var c := Converse(log, instructions, tools, registry, replies, env);
    var first := RequestFor(instructions, tools, log);
    var firsts := Repeat(first, s.attempts.count);
    RepeatHolds(first, s.attempts.count);
    ConverseUnfold(log, instructions, tools, registry, replies, env);
    ConverseRoundsUnfold(log, instructions, tools, registry, replies, env);
    if s.ending.None? {
      var next := log + s.round.response + s.round.results;
      var later := Converse(next, instructions, tools, registry, s.attempts.rest, env);
      ConverseRequestLogs(next, instructions, tools, registry, s.attempts.rest, env);
      RequestLogsCons(log, next, s.round, instructions, tools, firsts, later.sent, later.rounds);
      assert c.sent == firsts + later.sent && c.rounds == [s.round] + later.rounds;
    } else {
      RequestLogsFirst(log, instructions, tools, firsts, c.rounds);
      assert c.sent == firsts;
    }
  }

  /** Requests made with the starting log follow at most one round. */
  lemma RequestLogsFirst(log: seq<Message>, instructions: string, tools: seq<ToolSchema>, firsts: seq<Request>, rounds: seq<Round>)
    requires 1 <= |firsts| && forall k | 0 <= k < |firsts| :: firsts[k] == RequestFor(instructions, tools, log)
    requires |rounds| <= 1
    ensures RequestsFollow(firsts, rounds, log, instructions, tools)
  {
    assert rounds[..0] == [];
    assert log + Flatten(rounds[..0]) == log;
    assert forall k | 0 <= k < |firsts| :: firsts[k] == RequestFor(instructions, tools, log + Flatten(rounds[..0]));
    assert |rounds| == 1 ==> firsts[0] == RequestFor(instructions, tools, log + Flatten(rounds[..0]));
  }

  /**
   * One more round in front: requests `firsts` made with the starting log, followed by requests
   * that follow the rounds after `r` from the log `next` that `r` leaves, follow `[r] + rounds`.
   */
  lemma RequestLogsCons(log: seq<Message>, next: seq<Message>, r: Round, instructions: string, tools: seq<ToolSchema>,
                        firsts: seq<Request>, sent: seq<Request>, rounds: seq<Round>)
    requires next == log + r.response + r.results
    requires 1 <= |firsts| && forall k | 0 <= k < |firsts| :: firsts[k] == RequestFor(instructions, tools, log)
    requires RequestsFollow(sent, rounds, next, instructions, tools)
    ensures RequestsFollow(firsts + sent, [r] + rounds, log, instructions, tools)
  {
    var all := [r] + rounds;
    assert all[..0] == [];
    assert log + Flatten(all[..0]) == log;
    forall j | 0 <= j <= |rounds|
      ensures log + Flatten(all[..j + 1]) == next + Flatten(rounds[..j])
    {
      assert all[..j + 1] == [r] + rounds[..j];
      FlattenCons(log, r, rounds[..j]);
    }
    forall k | 0 <= k < |firsts + sent|
      ensures exists j | 0 <= j <= |all| :: (firsts + sent)[k] == RequestFor(instructions, tools, log + Flatten(all[..j]))
    {
      if k < |firsts| {
        assert (firsts + sent)[k] == RequestFor(instructions, tools, log + Flatten(all[..0]));
      } else {
        assert (firsts + sent)[k] == sent[k - |firsts|];
        var j :| 0 <= j <= |rounds| && sent[k - |firsts|] == RequestFor(instructions, tools, next + Flatten(rounds[..j]));
        assert (firsts + sent)[k] == RequestFor(instructions, tools, log + Flatten(all[..j + 1]));
      }
    }
    forall j | 0 <= j < |all|
      ensures RequestFor(instructions, tools, log + Flatten(all[..j])) in firsts + sent
    {
      if j == 0 {
        assert (firsts + sent)[0] == firsts[0];
      } else {
        var q := RequestFor(instructions, tools, next + Flatten(rounds[..j - 1]));
        assert q in sent;
        assert log + Flatten(all[..j]) == next + Flatten(rounds[..j - 1]);
      }
    }
  }

  lemma {:induction false} RepeatHolds<T>(x: T, n: nat)
    ensures |Repeat(x, n)| == n && forall k | 0 <= k < n :: Repeat(x, n)[k] == x
  {
    if n > 0 {
      RepeatHolds(x, n - 1);
    }
  }

  /** The attempts `whole` of a call, `done` of them made and `slept` slept so far, go on as the attempts `now` from there. */
  predicate Resumes(whole: Attempts, now: Attempts, slept: seq<int>, done: nat) {
    && whole.outcome == now.outcome && whole.rest == now.rest
    && whole.sleeps == slept + now.sleeps && whole.count == done + now.count
  }

  /** Resuming is transitive: a call resumed after `done` attempts and then after one more is resumed after `done + 1`. */
  lemma ResumesStep(whole: Attempts, now: Attempts, next: Attempts, slept: seq<int>, done: nat, pause: int)
    requires Resumes(whole, now, slept, done) && Resumes(now, next, [pause], 1)
    ensures Resumes(whole, next, slept + [pause], done + 1)
  {
    assert slept + ([pause] + next.sleeps) == (slept + [pause]) + next.sleeps;
  }

  /** Unfolds one round of `Converse`: where it ends, or how the rest goes on from the round's log. */
  lemma ConverseUnfold(log: seq<Message>, instructions: string, tools: seq<ToolSchema>, registry: map<string, ToolFn>,
                       replies: seq<Reply>, env: ToolCall -> Ambient)
    ensures var s := RoundFrom(registry, replies, env);
      var c := Converse(log, instructions, tools, registry, replies, env);
      var next := log + s.round.response + s.round.results;
      var sent := Repeat(RequestFor(instructions, tools, log), s.attempts.count);
      && (s.ending.Some? ==>
            c.outcome == s.ending.value && c.log == next && c.rest == s.attempts.rest
            && c.sleeps == s.attempts.sleeps && c.sent == sent)
      && (s.ending.None? ==>
            var later := Converse(next, instructions, tools, registry, s.attempts.rest, env);
            c.outcome == later.outcome && c.log == later.log && c.rest == later.rest
            && c.sleeps == s.attempts.sleeps + later.sleeps && c.sent == sent + later.sent)
  {
  }

  /**
   * The conversation `whole` of a `send`, with the sleeps and requests made so far being `d` after
   * `d0` and `q` after `q0`, goes on as the conversation `c` from here.
   */
  predicate Tracks(whole: Conversation, c: Conversation, d0: seq<int>, d: seq<int>, q0: seq<Request>, q: seq<Request>) {
    && whole.outcome == c.outcome && whole.log == c.log && whole.rest == c.rest
    && d0 + whole.sleeps == d + c.sleeps && q0 + whole.sent == q + c.sent
  }

  /** After a round that does not end the conversation, `whole` goes on as the conversation from the round's log. */
  lemma TracksRound(whole: Conversation, c: Conversation, s: Step, request: Request,
                    d0: seq<int>, d: seq<int>, q0: seq<Request>, q: seq<Request>)
    requires Tracks(whole, c, d0, d, q0, q)
    ensures forall later: Conversation |
      && c.outcome == later.outcome && c.log == later.log && c.rest == later.rest
      && c.sleeps == s.attempts.sleeps + later.sleeps && c.sent == Repeat(request, s.attempts.count) + later.sent
      :: Tracks(whole, later, d0, d + s.attempts.sleeps, q0, q + Repeat(request, s.attempts.count))
  {
    forall later: Conversation |
      && c.outcome == later.outcome && c.log == later.log && c.rest == later.rest
      && c.sleeps == s.attempts.sleeps + later.sleeps && c.sent == Repeat(request, s.attempts.count) + later.sent
      ensures Tracks(whole, later, d0, d + s.attempts.sleeps, q0, q + Repeat(request, s.attempts.count))
    {
      assert d + (s.attempts.sleeps + later.sleeps) == (d + s.attempts.sleeps) + later.sleeps;
      assert q + (Repeat(request, s.attempts.count) + later.sent) == (q + Repeat(request, s.attempts.count)) + later.sent;
    }
  }

  /** One more copy of a request recorded after `n` of them. */
  lemma RepeatSnoc<T>(before: seq<T>, x: T, n: nat)
    ensures before + Repeat(x, n + 1) == (before + Repeat(x, n)) + [x]
  {
  }

  /** An answered attempt, or a failed last one, ends the call with one request and no sleep. */
  lemma CallFromEnds(replies: seq<Reply>, attempt: nat)
    requires attempt < MaxRetries
    requires Nth(replies, 0).Replied? || attempt == MaxRetries - 1
    ensures var a := CallFrom(replies, attempt);
      && a.outcome == (if Nth(replies, 0).Replied? then Success(Converted(Nth(replies, 0).choices)) else Failure(Nth(replies, 0).error))
      && a.rest == (if replies == [] then [] else replies[1..])
      && a.sleeps == [] && a.count == 1
  {
  }

  /** A failed attempt that is not the last sleeps `BaseDelay * 2^attempt` and leaves the rest to the next attempt. */
  lemma CallFromRetries(replies: seq<Reply>, attempt: nat)
    requires attempt < MaxRetries - 1 && !Nth(replies, 0).Replied?
    ensures var a := CallFrom(replies, attempt);
      var b := CallFrom(if replies == [] then [] else replies[1..], attempt + 1);
      Resumes(a, b, [BaseDelay * Pow2(attempt)], 1)
  {
  }

  // ---- The remote model and the client ----

  /** The chat-completions endpoint as a scripted oracle: it answers requests with the script's entries in turn, and fails once they run out. */
  class Remote {
    var replies: seq<Reply>
    var sent: seq<Request>

    constructor (script: seq<Reply>)
      ensures replies == script && sent == []
    {
      replies := script;
      sent := [];
    }

    /** `chat.completions.create`: the next scripted reply, the request being recorded. */
    method Create(request: Request) returns (r: Reply)
      modifies this
      ensures r == Nth(old(replies), 0)
      ensures replies == (if old(replies) == [] then [] else old(replies)[1..])
      ensures sent == old(sent) + [request]
    {
      if replies == [] {
        r := Failed(Unreachable);
      } else {
        r := replies[0];
        replies := replies[1..];
      }
      sent := sent + [request];
    }
  }

  /** `OpenAIResponsesClient`. */
  class ResponsesClient {
    /** `_state`: the conversation log. */
    var state: seq<Message>
    /** `_instructions`: the system prompt. */
    var instructions: string
    /** `_tools`: one schema per registration, duplicates included. */
    var tools: seq<ToolSchema>
    /** `_tool_registry`: the function registered last under each name. */
    var registry: map<string, ToolFn>
    /** The endpoint the client talks to. */
    const remote: Remote
    /** Every sleep between attempts, in seconds. */
    ghost var delays: seq<int>
    /** The configuration calls made on this client, in order. */
    ghost var history: seq<Setting>

    constructor (remote: Remote)
      ensures this.remote == remote
      ensures state == [] && instructions == "" && tools == [] && registry == map[]
      ensures delays == [] && history == []
    {
      this.remote := remote;
      state := [];
      instructions := "";
      tools := [];
      registry := map[];
      delays := [];
      history := [];
    }

    /** `set_system_prompt`. */
    method SetSystemPrompt(text: string)
      modifies this
      ensures instructions == text
      ensures state == old(state) && tools == old(tools) && registry == old(registry)
      ensures delays == old(delays) && history == old(history) + [PromptSet(text)]
    {
      instructions := text;
      history := history + [PromptSet(text)];
    }

    /** `reset`: the log is emptied; the prompt and the tools stay. */
    method Reset()
      modifies this
      ensures state == []
      ensures instructions == old(instructions) && tools == old(tools) && registry == old(registry)
      ensures delays == old(delays) && history == old(history) + [LogCleared]
    {
      state := [];
      history := history + [LogCleared];
    }

    /** `register_function_tool`: a second registration under a name replaces the function and adds a second schema. */
    method RegisterFunctionTool(name: string, description: string, parameters: Json, func: ToolFn)
      modifies this
      ensures tools == old(tools) + [ToolSchema(name, description, parameters)]
      ensures registry == old(registry)[name := func]
      ensures state == old(state) && instructions == old(instructions)
      ensures delays == old(delays) && history == old(history) + [ToolRegistered(name)]
    {
      tools := tools + [ToolSchema(name, description, parameters)];
      registry := registry[name := func];
      history := history + [ToolRegistered(name)];
    }

    /** `_call_model`: up to three requests carrying the same messages, with a sleep after each failure but the last. */
    method CallModel(messages: seq<Message>) returns (r: Result<seq<Message>, string>)
      modifies this`delays, remote
      ensures var a := CallFrom(old(remote.replies), 0);
        && r == a.outcome
        && remote.replies == a.rest
        && delays == old(delays) + a.sleeps
        && remote.sent == old(remote.sent) + Repeat(RequestFor(instructions, tools, messages), a.count)
    {
      var request := RequestFor(instructions, tools, messages);
      ghost var whole := CallFrom(remote.replies, 0);
      ghost var slept: seq<int> := [];
      var attempt := 0;
      while true
        invariant 0 <= attempt < MaxRetries
        invariant Resumes(whole, CallFrom(remote.replies, attempt), slept, attempt)
        invariant delays == old(delays) + slept
        invariant remote.sent == old(remote.sent) + Repeat(request, attempt)
        decreases MaxRetries - attempt
      {
        ghost var here := remote.replies;
        var reply := remote.Create(request);
        if reply.Replied? {
          CallFromEnds(here, attempt);
          RepeatSnoc(old(remote.sent), request, attempt);
          r := Success(Converted(reply.choices));
          return;
        }
        if attempt < MaxRetries - 1 {
          var pause := BaseDelay * Pow2(attempt);
          CallFromRetries(here, attempt);
          ResumesStep(whole, CallFrom(here, attempt), CallFrom(remote.replies, attempt + 1), slept, attempt, pause);
          assert old(delays) + (slept + [pause]) == (old(delays) + slept) + [pause];
          RepeatSnoc(old(remote.sent), request, attempt);
          delays := delays + [pause];
          slept := slept + [pause];
          attempt := attempt + 1;
        } else {
          CallFromEnds(here, attempt);
          RepeatSnoc(old(remote.sent), request, attempt);
          r := Failure(reply.error);
          return;
        }
      }
    }

    /** `_execute_tools`: the tool turns for the calls, in order; arguments that do not decode abort the whole batch. */
    method ExecuteTools(calls: seq<ToolCall>, env: ToolCall -> Ambient) returns (r: Option<seq<Message>>)
      ensures r == ToolTurns(registry, calls, env)
    {
      var results: seq<Message> := [];
      var i := 0;
      while i < |calls|
        invariant 0 <= i <= |calls|
        invariant ToolTurns(registry, calls[..i], env) == Some(results)
      {
        var call := calls[i];
        assert calls[..i + 1][..i] == calls[..i];
        if call.arguments.None? {
          PoisonedPrefix(registry, calls, i + 1, env);
          return None;
        }
        var args := call.arguments.value;
        var content: StrValue;
        if call.name !in registry {
          content := Chars("Tool '" + call.name + "' not found");
        } else {
          var out := registry[call.name](args, env(call));
          match out
          case Raised(m) => content := Chars("Error executing tool '" + call.name + "': " + m);
          case Returned(PyStr(s)) => content := s;
          case Returned(PyValue(doc)) => content := JsonOf(doc);
        }
        results := results + [Tool(call.id, content)];
        i := i + 1;
      }
      assert calls[..|calls|] == calls;
      r := Some(results);
    }

    /**
     * `send`: the user turn is appended, then rounds run until a response carries no tool calls.
     * The new state is what `Converse` describes; the prompt and the tools stay as they were.
     */
    method Send(userMessage: string, env: ToolCall -> Ambient) returns (r: SendOutcome)
      modifies this, remote
      ensures var c := Converse(old(state) + [User(userMessage)], instructions, tools, registry, old(remote.replies), env);
        && r == c.outcome
        && state == c.log
        && remote.replies == c.rest
        && delays == old(delays) + c.sleeps
        && remote.sent == old(remote.sent) + c.sent
      ensures instructions == old(instructions) && tools == old(tools) && registry == old(registry)
      ensures history == old(history)
    {
      state := state + [User(userMessage)];
      ghost var whole := Converse(state, instructions, tools, registry, remote.replies, env);
      while true
        invariant instructions == old(instructions) && tools == old(tools) && registry == old(registry)
        invariant history == old(history)
        invariant Tracks(whole, Converse(state, instructions, tools, registry, remote.replies, env), old(delays), delays, old(remote.sent), remote.sent)
        decreases |remote.replies|
      {
        ghost var log := state;
        ghost var s := RoundFrom(registry, remote.replies, env);
        ghost var c := Converse(log, instructions, tools, registry, remote.replies, env);
        ghost var request := RequestFor(instructions, tools, log);
        ConverseUnfold(log, instructions, tools, registry, remote.replies, env);
        TracksRound(whole, c, s, request, old(delays), delays, old(remote.sent), remote.sent);
        var reply := CallModel(state);
        if reply.Failure? {
          r := Aborted(reply.error);
          assert log + s.round.response + s.round.results == log;
          return;
        }
        var response := reply.value;
        state := state + response;
        var calls := CollectToolCalls(response);
        if calls == [] {
          var answer := LastAnswer(response);
          r := Answered(answer);
          assert log + s.round.response + s.round.results == state;
          return;
        }
        var results := ExecuteTools(calls, env);
        if results.None? {
          r := Aborted(MalformedArguments);
          assert log + s.round.response + s.round.results == state;
          return;
        }
        state := state + results.value;
      }
    }
  }

  /** The loop of `send` that gathers the tool calls of a response. */
  method CollectToolCalls(response: seq<Message>) returns (calls: seq<ToolCall>)
    ensures calls == CollectCalls(response)
  {
    calls := [];
    var i := 0;
    while i < |response|
      invariant 0 <= i <= |response|
      invariant calls == CollectCalls(response[..i])
    {
      assert response[..i + 1][..i] == response[..i];
      var item := response[i];
      if item.Assistant? {
        calls := calls + item.toolCalls;
      }
      i := i + 1;
    }
    assert response[..|response|] == response;
  }

  /** The loop of `send` that looks for the final answer from the end of the response. */
  method LastAnswer(response: seq<Message>) returns (answer: Option<string>)
    ensures answer == FinalAnswer(response)
  {
    var k := |response|;
    assert response[..k] == response;
    while k > 0
      invariant 0 <= k <= |response|
      invariant FinalAnswer(response[..k]) == FinalAnswer(response)
    {
      assert response[..k][..k - 1] == response[..k - 1];
      if response[k - 1].Assistant? {
        return response[k - 1].content;
      }
      k := k - 1;
    }
    answer := Some(FallbackAnswer);
  }
}
