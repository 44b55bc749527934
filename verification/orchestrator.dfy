/** One conversation turn of the chat handlers: the user message is appended,
    then the model is called with the history and the tools until it answers
    with a finish reason other than "tool_calls"; each tool-calling reply is
    appended together with one result message per call. Token usage is
    accounted after every reply. The console loop runs turns until "exit" or
    "quit" and compacts the context after each completed turn. */
module Orchestrator {
  import opened Base
  import opened Messages
  import opened ToolGateway
  import opened StreamMerge
  import opened ContextManager

  /** The running totals of tokens_used. */
  datatype Totals = Totals(cached: nat, miss: nat, prompt: nat, completion: nat)

  /** The handler's state: the history, the tools offered to the model, the
      prompt size last reported (message_tokens) and the running totals. */
  datatype Session = Session(history: seq<Message>, tools: seq<ToolSpec>, messageTokens: nat, totals: Totals)

  /** A handler before its first turn: nothing counted yet. */
  function Fresh(history: seq<Message>, tools: seq<ToolSpec>): Session
  {
    Session(history, tools, 0, Totals(0, 0, 0, 0))
  }

  // ---- Token accounting ----

  /** The totals one usage report adds; no report adds nothing. */
  function Counted(u: Option<Usage>): Totals
  {
    match u
    case None => Totals(0, 0, 0, 0)
    case Some(v) => Totals(v.cacheHitTokens, v.cacheMissTokens, v.promptTokens, v.completionTokens)
  }

  function AddTotals(a: Totals, b: Totals): Totals
  {
    Totals(a.cached + b.cached, a.miss + b.miss, a.prompt + b.prompt, a.completion + b.completion)
  }

  /** Reference: the totals of a list of usage reports. */
  function Sum(us: seq<Option<Usage>>): Totals
  {
    if us == [] then Totals(0, 0, 0, 0) else AddTotals(Counted(us[0]), Sum(us[1..]))
  }

  /** Reference: the last usage report that is present. */
  function LastUsage(us: seq<Option<Usage>>): (r: Option<Usage>)
    ensures r.Some? ==> r in us
    ensures r.None? ==> forall k :: 0 <= k < |us| ==> us[k].None?
  {
    if us == [] then None
    else if us[|us| - 1].Some? then us[|us| - 1]
    else LastUsage(us[..|us| - 1])
  }

  /** The accounting after one reply: the prompt size is replaced, each total
      grows by the matching count; a reply without usage changes nothing. */
  function Account(s: Session, u: Option<Usage>): (r: Session)
    ensures r.history == s.history && r.tools == s.tools
    ensures r.totals == AddTotals(s.totals, Counted(u))
    ensures r.messageTokens == (if u.Some? then u.value.promptTokens else s.messageTokens)
  {
    match u
    case None => s
    case Some(v) => s.(messageTokens := v.promptTokens, totals := AddTotals(s.totals, Counted(u)))
  }

  lemma {:induction false} LastUsageCons(u: Option<Usage>, us: seq<Option<Usage>>)
    ensures LastUsage([u] + us) == (if LastUsage(us).Some? then LastUsage(us) else u)
    decreases |us|
  {
    if us != [] {
      var w := [u] + us;
      assert w[..|w| - 1] == [u] + us[..|us| - 1];
      assert w[|w| - 1] == us[|us| - 1];
      if us[|us| - 1].None? {
        LastUsageCons(u, us[..|us| - 1]);
      }
    } else {
      assert ([u] + us)[..0] == [];
    }
  }

  // ---- The model ----

  /** The chat model. `stream` is chat_stream (the chunks, then possibly an
      exception); `normal` is chat, whose first choice is the reply. */
  datatype Model = Model(stream: ChatRequest -> Stream, normal: ChatRequest -> Result<Reply>)

  /** The tool side: the argument parser and the MCP client's call_tool. */
  datatype Tools<!A> = Tools(parse: Parser<A>, exec: Executor<A>)

  /** One call of the model, streamed (_call_llm_stream) or not (_call_llm_normal). */
  function CallModel(m: Model, useStream: bool, req: ChatRequest): (c: ModelCall)
    ensures !useStream ==> c.fragments == []
  {
    if useStream then CallLlmStream(m.stream(req)) else ModelCall([], m.normal(req))
  }

  const ToolCallsReason: string := "tool_calls"

  /** What iterating over a null tool_calls raises. */
  const NotIterableError: string := "'NoneType' object is not iterable"

  /** How a turn ended: with an answer, with an exception, or still calling
      tools when the bound on model calls ran out. */
  datatype Outcome = Answered(reply: Reply) | Raised(error: string) | OutOfFuel

  /** A turn: the state after it, the text fragments streamed during it, the
      requests sent to the model, the replies received, and how it ended. */
  datatype Turn = Turn(state: Session, fragments: seq<string>, requests: seq<ChatRequest>, replies: seq<Reply>, outcome: Outcome)

  function UsagesOf(replies: seq<Reply>): (us: seq<Option<Usage>>)
    ensures |us| == |replies|
    ensures forall k :: 0 <= k < |replies| ==> us[k] == replies[k].usage
  {
    if replies == [] then [] else [replies[0].usage] + UsagesOf(replies[1..])
  }

  /** Messages that answer `calls` in order: one tool message per call, carrying its id. */
  predicate Answers(results: seq<Message>, calls: seq<ToolCall>)
  {
    && |results| == |calls|
    && forall k :: 0 <= k < |calls| ==> results[k].role == Tool && results[k].toolCallId == calls[k].id
  }

  /** Rounds of tool use: each an assistant message declaring its calls,
      followed by one answer per call. */
  predicate ToolRounds(ms: seq<Message>)
    decreases |ms|
  {
    ms == [] ||
    (&& ms[0].role == Assistant
     && ms[0].toolCalls.Given?
     && 1 + |ms[0].toolCalls.value| <= |ms|
     && Answers(ms[1..1 + |ms[0].toolCalls.value|], ms[0].toolCalls.value)
     && ToolRounds(ms[1 + |ms[0].toolCalls.value|..]))
  }

  lemma ToolRoundsCons(content: Option<string>, calls: seq<ToolCall>, results: seq<Message>, rest: seq<Message>)
    requires Answers(results, calls) && ToolRounds(rest)
    ensures ToolRounds([CallingMessage(content, calls)] + results + rest)
  {
    var ms := [CallingMessage(content, calls)] + results + rest;
    assert ms[1..1 + |calls|] == results;
    assert ms[1 + |calls|..] == rest;
  }

  /** The history of a finished turn: the history it started from, then tool
      rounds, then the answer. */
  predicate Concluded(before: seq<Message>, after: seq<Message>, reply: Reply)
  {
    && |before| < |after|
    && before <= after
    && after[|after| - 1] == AnswerMessage(reply.content)
    && ToolRounds(after[|before|..|after| - 1])
  }

  lemma ConcludedStep(before: seq<Message>, round: seq<Message>, content: Option<string>, calls: seq<ToolCall>,
                      results: seq<Message>, after: seq<Message>, reply: Reply)
    requires round == [CallingMessage(content, calls)] + results && Answers(results, calls)
    requires Concluded(before + round, after, reply)
    ensures Concluded(before, after, reply)
  {
    var mid := before + round;
    var rest := after[|mid|..|after| - 1];
    ToolRoundsCons(content, calls, results, rest);
    assert after[|before|..|after| - 1] == round + rest;
  }

  lemma OutOfFuelStep(before: seq<Message>, round: seq<Message>, content: Option<string>, calls: seq<ToolCall>,
                      results: seq<Message>, after: seq<Message>)
    requires round == [CallingMessage(content, calls)] + results && Answers(results, calls)
    requires before + round <= after && ToolRounds(after[|before + round|..])
    ensures before <= after && ToolRounds(after[|before|..])
  {
    var rest := after[|before + round|..];
    ToolRoundsCons(content, calls, results, rest);
    assert after[|before|..] == round + rest;
  }

  /** A tool round followed by a turn that concluded (or ran out of calls)
      from the history after the round. */
  lemma RoundsStep(before: seq<Message>, round: seq<Message>, content: Option<string>, calls: seq<ToolCall>,
                   results: seq<Message>, more: Turn)
    requires round == [CallingMessage(content, calls)] + results && Answers(results, calls)
    requires before + round <= more.state.history
    requires more.outcome.Answered? ==> Concluded(before + round, more.state.history, more.outcome.reply)
    requires more.outcome.OutOfFuel? ==> ToolRounds(more.state.history[|before + round|..])
    ensures more.outcome.Answered? ==> Concluded(before, more.state.history, more.outcome.reply)
    ensures more.outcome.OutOfFuel? ==> ToolRounds(more.state.history[|before|..])
  {
    if more.outcome.Answered? {
      ConcludedStep(before, round, content, calls, results, more.state.history, more.outcome.reply);
    } else if more.outcome.OutOfFuel? {
      OutOfFuelStep(before, round, content, calls, results, more.state.history);
    }
  }

  /** The results of a batch that raised nothing answer every call. */
  lemma BatchAnswers<A>(calls: seq<ToolCall>, t: Tools<A>)
    requires ProcessToolCalls(calls, t.parse, t.exec).error.None?
    ensures Answers(ProcessToolCalls(calls, t.parse, t.exec).results, calls)
  {
    ProcessToolCallsSpec(calls, t.parse, t.exec);
  }

  /** The `while True` loop of handle_chat and of the worker, from a history
      that already holds the user message. At most `fuel` model calls are made. */
  function Rounds<A>(m: Model, useStream: bool, t: Tools<A>, s: Session, fuel: nat): (r: Turn)
    ensures s.history <= r.state.history && r.state.tools == s.tools
    ensures fuel > 0 <==> r.requests != []
    ensures r.outcome.Answered? ==> r.replies != [] && r.replies[|r.replies| - 1] == r.outcome.reply
    decreases fuel
  {
    if fuel == 0 then Turn(s, [], [], [], OutOfFuel)
    else
      var req := ChatRequest(s.history, s.tools);
      var call := CallModel(m, useStream, req);
      match call.reply
      case Failure(e) => Turn(s, call.fragments, [req], [], Raised(e))
      case Success(reply) =>
        var s1 := Account(s, reply.usage);
        if reply.finishReason != Some(ToolCallsReason) then
          var s2 := s1.(history := s1.history + [AnswerMessage(reply.content)]);
          Turn(s2, call.fragments, [req], [reply], Answered(reply))
        else
          match reply.toolCalls
          case None =>
            var s2 := s1.(history := s1.history + [NullCallsMessage(reply.content)]);
            Turn(s2, call.fragments, [req], [reply], Raised(NotIterableError))
          case Some(calls) =>
            var batch := ProcessToolCalls(calls, t.parse, t.exec);
            var round := [CallingMessage(reply.content, calls)] + batch.results;
            var s2 := s1.(history := s1.history + round);
            if batch.error.Some? then
              Turn(s2, call.fragments, [req], [reply], Raised(batch.error.value))
            else
              var more := Rounds(m, useStream, t, s2, fuel - 1);
              assert s.history <= s2.history;
              Turn(more.state, call.fragments + more.fragments, [req] + more.requests, [reply] + more.replies, more.outcome)
  }

  /** A reply that finishes with `tool_calls` but carries none is stored with
      its `tool_calls` key set to null, unlike an answer, which has no such
      key; iterating over the missing calls then raises. The stored message
      stays in the history, so a later request carries it. */
  lemma RoundsNullCalls<A>(m: Model, useStream: bool, t: Tools<A>, s: Session, fuel: nat)
    requires fuel > 0
    ensures var call := CallModel(m, useStream, ChatRequest(s.history, s.tools));
            var r := Rounds(m, useStream, t, s, fuel);
            call.reply.Success? && call.reply.value.finishReason == Some(ToolCallsReason) && call.reply.value.toolCalls.None? ==>
              && r.outcome == Raised(NotIterableError)
              && r.state.history == s.history + [NullCallsMessage(call.reply.value.content)]
              && r.state.history[|s.history|].toolCalls.Null?
              && r.state.history[|s.history|] != AnswerMessage(call.reply.value.content)
  {
  }

  /** The totals after a turn grew by the sum of the usage the turn's replies reported. */
  lemma AddAssociative(a: Totals, b: Totals, c: Totals)
    ensures AddTotals(AddTotals(a, b), c) == AddTotals(a, AddTotals(b, c))
  {
  }

  lemma SumSingle(u: Option<Usage>)
    ensures Sum([u]) == Counted(u)
  {
    assert [u][1..] == [];
  }

  lemma {:induction false} RoundsTotals<A>(m: Model, useStream: bool, t: Tools<A>, s: Session, fuel: nat)
    ensures var r := Rounds(m, useStream, t, s, fuel);
            r.state.totals == AddTotals(s.totals, Sum(UsagesOf(r.replies)))
    decreases fuel
  {
    var r := Rounds(m, useStream, t, s, fuel);
    if fuel > 0 {
      var call := CallModel(m, useStream, ChatRequest(s.history, s.tools));
      if call.reply.Success? {
        var reply := call.reply.value;
        var s1 := Account(s, reply.usage);
        if reply.finishReason == Some(ToolCallsReason) && reply.toolCalls.Some? {
          var batch := ProcessToolCalls(reply.toolCalls.value, t.parse, t.exec);
          var round := [CallingMessage(reply.content, reply.toolCalls.value)] + batch.results;
          var s2 := s1.(history := s1.history + round);
          if batch.error.None? {
            var more := Rounds(m, useStream, t, s2, fuel - 1);
            RoundsTotals(m, useStream, t, s2, fuel - 1);
            assert r.replies == [reply] + more.replies;
            assert UsagesOf(r.replies) == [reply.usage] + UsagesOf(more.replies);
            assert Sum(UsagesOf(r.replies)) == AddTotals(Counted(reply.usage), Sum(UsagesOf(more.replies)));
            AddAssociative(s.totals, Counted(reply.usage), Sum(UsagesOf(more.replies)));
          } else {
            SumSingle(reply.usage);
          }
        } else {
          SumSingle(reply.usage);
        }
      }
    }
  }

  /** message_tokens after a turn is the prompt size of the last reply that
      reported usage, and is unchanged when none did. */
  lemma {:induction false} RoundsMessageTokens<A>(m: Model, useStream: bool, t: Tools<A>, s: Session, fuel: nat)
    ensures var r := Rounds(m, useStream, t, s, fuel);
            var last := LastUsage(UsagesOf(r.replies));
            r.state.messageTokens == (if last.Some? then last.value.promptTokens else s.messageTokens)
    decreases fuel
  {
    var r := Rounds(m, useStream, t, s, fuel);
    if fuel > 0 {
      var call := CallModel(m, useStream, ChatRequest(s.history, s.tools));
      if call.reply.Success? {
        var reply := call.reply.value;
        var s1 := Account(s, reply.usage);
        if reply.finishReason == Some(ToolCallsReason) && reply.toolCalls.Some? {
          var batch := ProcessToolCalls(reply.toolCalls.value, t.parse, t.exec);
          var round := [CallingMessage(reply.content, reply.toolCalls.value)] + batch.results;
          var s2 := s1.(history := s1.history + round);
          if batch.error.None? {
            var more := Rounds(m, useStream, t, s2, fuel - 1);
            RoundsMessageTokens(m, useStream, t, s2, fuel - 1);
            assert r.replies == [reply] + more.replies;
            assert UsagesOf(r.replies) == [reply.usage] + UsagesOf(more.replies);
            LastUsageCons(reply.usage, UsagesOf(more.replies));
          } else {
            assert UsagesOf(r.replies) == [reply.usage] + [];
            LastUsageCons(reply.usage, []);
          }
        } else {
          assert UsagesOf(r.replies) == [reply.usage] + [];
          LastUsageCons(reply.usage, []);
        }
      }
    }
  }

  /** Every request of the turn carries the session's tools and a history
      that extends the one the turn started from and that the turn ends with. */
  predicate RequestsWithin(s: Session, r: Turn)
  {
    forall k :: 0 <= k < |r.requests| ==>
      r.requests[k].tools == s.tools && s.history <= r.requests[k].messages <= r.state.history
  }

  lemma RequestsStep(s: Session, s2: Session, more: Turn, r: Turn)
    requires s.history <= s2.history <= more.state.history && s2.tools == s.tools
    requires RequestsWithin(s2, more)
    requires r.requests == [ChatRequest(s.history, s.tools)] + more.requests && r.state == more.state
    ensures RequestsWithin(s, r)
  {
    forall k | 0 <= k < |r.requests|
      ensures r.requests[k].tools == s.tools && s.history <= r.requests[k].messages <= r.state.history
    {
      if k > 0 {
        assert r.requests[k] == more.requests[k - 1];
      }
    }
  }

  /** Every request carries the tools and the history as it stood: the first
      is the history the turn started from, and each one is a prefix of the
      history the turn ends with, so the model sees every earlier tool result. */
  lemma {:induction false} RoundsRequests<A>(m: Model, useStream: bool, t: Tools<A>, s: Session, fuel: nat)
    ensures var r := Rounds(m, useStream, t, s, fuel);
            && (fuel > 0 ==> r.requests[0] == ChatRequest(s.history, s.tools))
            && RequestsWithin(s, r)
    decreases fuel
  {
    var r := Rounds(m, useStream, t, s, fuel);
    if fuel > 0 {
      var req := ChatRequest(s.history, s.tools);
      var call := CallModel(m, useStream, req);
      if call.reply.Success? {
        var reply := call.reply.value;
        var s1 := Account(s, reply.usage);
        if reply.finishReason == Some(ToolCallsReason) && reply.toolCalls.Some? {
          var batch := ProcessToolCalls(reply.toolCalls.value, t.parse, t.exec);
          var round := [CallingMessage(reply.content, reply.toolCalls.value)] + batch.results;
          var s2 := s1.(history := s1.history + round);
          if batch.error.None? {
            var more := Rounds(m, useStream, t, s2, fuel - 1);
            RoundsRequests(m, useStream, t, s2, fuel - 1);
            RequestsStep(s, s2, more, r);
          } else {
            RequestsSingle(s, r);
          }
        } else {
          RequestsSingle(s, r);
        }
      } else {
        RequestsSingle(s, r);
      }
    }
  }

  lemma RequestsSingle(s: Session, r: Turn)
    requires r.requests == [ChatRequest(s.history, s.tools)] && s.history <= r.state.history
    ensures RequestsWithin(s, r)
  {
  }

  /** A turn that answers ends with the answer, after complete tool rounds
      (each declared call answered in order by a tool message with its id);
      its finish reason is not "tool_calls". A turn cut off by the call bound
      consists of complete tool rounds. */
  lemma {:induction false} RoundsConclude<A>(m: Model, useStream: bool, t: Tools<A>, s: Session, fuel: nat)
    ensures var r := Rounds(m, useStream, t, s, fuel);
            && (r.outcome.Answered? ==>
                  && r.outcome.reply.finishReason != Some(ToolCallsReason)
                  && Concluded(s.history, r.state.history, r.outcome.reply))
            && (r.outcome.OutOfFuel? ==> ToolRounds(r.state.history[|s.history|..]))
    decreases fuel
  {
    var r := Rounds(m, useStream, t, s, fuel);
    if fuel == 0 {
      assert r.state.history[|s.history|..] == [];
    } else {
      var call := CallModel(m, useStream, ChatRequest(s.history, s.tools));
      if call.reply.Success? {
        var reply := call.reply.value;
        var s1 := Account(s, reply.usage);
        if reply.finishReason != Some(ToolCallsReason) {
          assert r.state.history == s.history + [AnswerMessage(reply.content)];
          assert r.state.history[|s.history|..|r.state.history| - 1] == [];
        } else if reply.toolCalls.Some? {
          var calls := reply.toolCalls.value;
          var batch := ProcessToolCalls(calls, t.parse, t.exec);
          var round := [CallingMessage(reply.content, calls)] + batch.results;
          var s2 := s1.(history := s1.history + round);
          if batch.error.None? {
            var more := Rounds(m, useStream, t, s2, fuel - 1);
            RoundsConclude(m, useStream, t, s2, fuel - 1);
            BatchAnswers(calls, t);
            assert s2.history == s.history + round;
            RoundsStep(s.history, round, reply.content, calls, batch.results, more);
          }
        }
      }
    }
  }

  /** handle_chat: append the user message, prepare the tools when there are
      none (an exception from `list_tools` or from the whitelist check ends
      the turn before the model is called), then run the rounds. The history
      is not compacted inside a turn. `listed` is what `list_tools` gives. */
  function HandleChat<A>(m: Model, useStream: bool, t: Tools<A>, w: Whitelist, listed: Result<seq<CatalogTool>>,
                         s: Session, input: string, fuel: nat): (r: Turn)
    ensures s.history + [UserMessage(input)] <= r.state.history
    ensures s.tools != [] ==> r.state.tools == s.tools
    ensures s.tools == [] && listed.Failure? ==> r.outcome == Raised(listed.error) && r.requests == []
    ensures s.tools == [] && listed.Success? && PrepareTools(w, listed.value).Success? ==>
              r.state.tools == PrepareTools(w, listed.value).value
    ensures s.tools == [] && listed.Success? && PrepareTools(w, listed.value).Failure? ==>
              r.outcome == Raised(PrepareTools(w, listed.value).error) && r.requests == []
    ensures r.outcome.Answered? ==> Concluded(s.history + [UserMessage(input)], r.state.history, r.outcome.reply)
    ensures fuel > 0 && r.requests != [] ==> r.requests[0].messages == s.history + [UserMessage(input)]
  {
    var s1 := s.(history := s.history + [UserMessage(input)]);
    var prepared := match listed
      case Failure(e) => Failure(e)
      case Success(catalog) => PrepareTools(w, catalog);
    if s.tools == [] && prepared.Failure? then Turn(s1, [], [], [], Raised(prepared.error))
    else
      var s2 := if s.tools == [] then s1.(tools := prepared.value) else s1;
      RoundsConclude(m, useStream, t, s2, fuel);
      RoundsRequests(m, useStream, t, s2, fuel);
      Rounds(m, useStream, t, s2, fuel)
  }

  // ---- The console loop ----

  /** str.lower() on the ASCII letters, the only characters that lower to the
      letters of "exit" and "quit" one for one. */
  function Lower(s: string): (r: string)
    ensures |r| == |s|
    ensures forall k :: 0 <= k < |s| ==> r[k] == (if 'A' <= s[k] <= 'Z' then s[k] - 'A' + 'a' else s[k])
  {
    if s == [] then [] else [if 'A' <= s[0] <= 'Z' then s[0] - 'A' + 'a' else s[0]] + Lower(s[1..])
  }

  predicate IsExit(input: string)
  {
    Lower(input) in ["exit", "quit"]
  }

  /** `s` spells the lower-case word `w` with any mix of cases. */
  predicate CaseVariant(s: string, w: string)
  {
    |s| == |w| && forall k :: 0 <= k < |s| ==> s[k] == w[k] || ('A' <= s[k] <= 'Z' && s[k] as int + 32 == w[k] as int)
  }

  /** An input ends the loop exactly when it is "exit" or "quit" in any mix of
      cases, with nothing around it. */
  lemma IsExitSpelling(input: string)
    ensures IsExit(input) <==> CaseVariant(input, "exit") || CaseVariant(input, "quit")
  {
    var l := Lower(input);
    if CaseVariant(input, "exit") {
      assert l == "exit";
    }
    if CaseVariant(input, "quit") {
      assert l == "quit";
    }
  }

  /** How the console loop ended. */
  datatype LoopStatus = Exited | InputEnded | LoopRaised(error: string) | LoopOutOfFuel

  datatype LoopEnd = LoopEnd(state: Session, turns: nat, status: LoopStatus)

  const EndOfInputError: string := "EOF when reading a line"

  /** How one pass of the loop body ended: the loop goes on from the next
      session, or it stops with the state reached. */
  datatype PassEnd = Continue(next: Session) | Stop(state: Session, status: LoopStatus)

  /** The loop body for an input that is not an exit word: a turn, then
      compaction once it answered. An exception from either ends the loop. */
  function LoopPass<A>(m: Model, useStream: bool, t: Tools<A>, w: Whitelist, listed: Result<seq<CatalogTool>>,
                       cfg: Config, summarize: Summarizer, s: Session, input: string, fuel: nat): (e: PassEnd)
    requires cfg.thresholdDen > 0
    ensures e.Stop? ==> e.status.LoopRaised? || e.status.LoopOutOfFuel?
  {
    var turn := HandleChat(m, useStream, t, w, listed, s, input, fuel);
    match turn.outcome
    case Raised(e) => Stop(turn.state, LoopRaised(e))
    case OutOfFuel => Stop(turn.state, LoopOutOfFuel)
    case Answered(_) =>
      match ManageContext(cfg, turn.state.history, turn.state.messageTokens, summarize)
      case Failure(e) => Stop(turn.state, LoopRaised(e))
      case Success(c) => Continue(turn.state.(history := c.history))
  }

  /** One pass compacts exactly once, after a turn that answered: the loop
      goes on exactly when the turn answered and compaction succeeded, and the
      next session is the turn's, with its concluded history replaced by the
      compacted one. Compaction works on the turn's final history and the
      prompt size of its last reported usage. A turn that raised or ran out of
      calls stops the loop uncompacted, and so does a compaction that raised,
      with its exception. */
  lemma LoopPassCompacts<A>(m: Model, useStream: bool, t: Tools<A>, w: Whitelist, listed: Result<seq<CatalogTool>>,
                            cfg: Config, summarize: Summarizer, s: Session, input: string, fuel: nat)
    requires cfg.thresholdDen > 0
    ensures var turn := HandleChat(m, useStream, t, w, listed, s, input, fuel);
            var c := ManageContext(cfg, turn.state.history, turn.state.messageTokens, summarize);
            var e := LoopPass(m, useStream, t, w, listed, cfg, summarize, s, input, fuel);
            && (e.Continue? <==> turn.outcome.Answered? && c.Success?)
            && (e.Continue? ==> Concluded(s.history + [UserMessage(input)], turn.state.history, turn.outcome.reply)
                                && e.next == turn.state.(history := c.value.history))
            && (e.Stop? ==> e.state == turn.state)
            && (turn.outcome.Raised? ==> e.status == LoopRaised(turn.outcome.error))
            && (turn.outcome.OutOfFuel? ==> e.status == LoopOutOfFuel)
            && (turn.outcome.Answered? && c.Failure? ==> e.status == LoopRaised(c.error))
  {
  }

  /** loop: read inputs until an exit word; run a turn for each other input,
      then compact the history. An exception from a turn or from compaction
      leaves the loop. */
  function ChatLoop<A>(m: Model, useStream: bool, t: Tools<A>, w: Whitelist, listed: Result<seq<CatalogTool>>,
                       cfg: Config, summarize: Summarizer, s: Session, inputs: seq<string>, fuel: nat): (r: LoopEnd)
    requires cfg.thresholdDen > 0
    ensures r.turns <= |inputs|
    ensures inputs != [] && IsExit(inputs[0]) ==> r == LoopEnd(s, 0, Exited)
    decreases |inputs|
  {
    if inputs == [] then LoopEnd(s, 0, InputEnded)
    else if IsExit(inputs[0]) then LoopEnd(s, 0, Exited)
    else
      match LoopPass(m, useStream, t, w, listed, cfg, summarize, s, inputs[0], fuel)
      case Stop(state, status) => LoopEnd(state, 1, status)
      case Continue(next) =>
        var more := ChatLoop(m, useStream, t, w, listed, cfg, summarize, next, inputs[1..], fuel);
        LoopEnd(more.state, 1 + more.turns, more.status)
  }

  /** How a loop over `inputs` may end: every input it ran a turn for was not
      an exit word; it exits at the first exit word, runs out of input only
      after a turn for every input, and raises or runs out of calls only
      after running a turn. */
  predicate LoopStops(inputs: seq<string>, r: LoopEnd)
  {
    && r.turns <= |inputs|
    && (forall k :: 0 <= k < r.turns ==> !IsExit(inputs[k]))
    && (r.status == Exited ==> r.turns < |inputs| && IsExit(inputs[r.turns]))
    && (r.status == InputEnded ==> r.turns == |inputs|)
    && (r.status.LoopRaised? || r.status.LoopOutOfFuel? ==> 0 < r.turns)
  }

  lemma LoopStopsStep(inputs: seq<string>, more: LoopEnd, r: LoopEnd)
    requires inputs != [] && !IsExit(inputs[0]) && LoopStops(inputs[1..], more)
    requires r.turns == 1 + more.turns && r.status == more.status
    ensures LoopStops(inputs, r)
  {
    forall k | 0 <= k < r.turns
      ensures !IsExit(inputs[k])
    {
      if k > 0 {
        assert inputs[k] == inputs[1..][k - 1];
      }
    }
    if r.status == Exited {
      assert inputs[r.turns] == inputs[1..][more.turns];
    }
  }

  /** The loop stops at the first exit word and nowhere else before the input ends. */
  lemma {:induction false} ChatLoopStops<A>(m: Model, useStream: bool, t: Tools<A>, w: Whitelist, listed: Result<seq<CatalogTool>>,
                                            cfg: Config, summarize: Summarizer, s: Session, inputs: seq<string>, fuel: nat)
    requires cfg.thresholdDen > 0
    ensures LoopStops(inputs, ChatLoop(m, useStream, t, w, listed, cfg, summarize, s, inputs, fuel))
    decreases |inputs|
  {
    if inputs != [] && !IsExit(inputs[0]) {
      var e := LoopPass(m, useStream, t, w, listed, cfg, summarize, s, inputs[0], fuel);
      if e.Continue? {
        ChatLoopStops(m, useStream, t, w, listed, cfg, summarize, e.next, inputs[1..], fuel);
        LoopStopsStep(inputs, ChatLoop(m, useStream, t, w, listed, cfg, summarize, e.next, inputs[1..], fuel),
                      ChatLoop(m, useStream, t, w, listed, cfg, summarize, s, inputs, fuel));
      }
    }
  }
}
