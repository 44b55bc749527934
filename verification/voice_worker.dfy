/** The voice handler's two sides of a turn. The LLM worker takes a user input,
    runs the tool-calling rounds with streaming, puts every streamed text
    fragment on the message queue and ends the turn's items with a None
    sentinel, then compacts the context; an exception puts an error text and a
    sentinel instead. chat_with_tts puts the input and renders the message
    queue up to the sentinel. The interactive loop repeats this until "exit" or
    "quit". */
module VoiceWorker {
  import opened Base
  import opened Messages
  import opened StreamMerge
  import opened ContextManager
  import opened Orchestrator
  import opened Sentences
  import opened Rendering

  const ErrorPrefix: string := "处理错误: "

  /** The exception Queue.task_done raises when no task is unfinished. */
  const TaskDoneError: string := "task_done() called too many times"

  /** The worker: the handler's session, the input queue's count of unfinished
      tasks, and whether the worker thread is still running. */
  datatype Worker = Worker(session: Session, unfinished: nat, alive: bool)

  /** One input handled: the worker after it, the items it put on the
      message queue, and the turn it ran. */
  datatype WorkerStep = WorkerStep(worker: Worker, items: seq<Option<string>>, turn: Turn)

  /** The streamed fragments as queue items. */
  function Said(fragments: seq<string>): (items: seq<Option<string>>)
    ensures |items| == |fragments|
    ensures forall k :: 0 <= k < |items| ==> items[k] == Some(fragments[k])
  {
    if fragments == [] then [] else [Some(fragments[0])] + Said(fragments[1..])
  }

  /** A turn's items as the renderer needs them: text items, then exactly one
      sentinel, last. */
  predicate OneSentinel(items: seq<Option<string>>)
  {
    && items != []
    && items[|items| - 1].None?
    && forall k :: 0 <= k < |items| - 1 ==> items[k].Some?
  }

  /** The worker's turn loop from the history with the user message appended. */
  function WorkerRounds<A>(m: Model, t: Tools<A>, w: Worker, input: string, fuel: nat): Turn
  {
    Rounds(m, true, t, w.session.(history := w.session.history + [UserMessage(input)]), fuel)
  }

  /** llm_worker for one input, as written: the sentinel is put and `task_done`
      called before compaction, so a compaction that raises runs the
      exception handler after the turn has already been closed. */
  function WorkerTurn<A>(m: Model, t: Tools<A>, cfg: Config, summarize: Summarizer, w: Worker, input: string, fuel: nat)
    : (r: WorkerStep)
    requires cfg.thresholdDen > 0 && w.alive && w.unfinished > 0
    ensures r.turn == WorkerRounds(m, t, w, input, fuel)
    ensures |r.turn.fragments| <= |r.items| && r.items[..|r.turn.fragments|] == Said(r.turn.fragments)
  {
    var turn := WorkerRounds(m, t, w, input, fuel);
    var said := Said(turn.fragments);
    match turn.outcome
    case OutOfFuel => WorkerStep(Worker(turn.state, w.unfinished, true), said, turn)
    case Raised(e) => WorkerStep(Worker(turn.state, w.unfinished - 1, true), said + [Some(ErrorPrefix + e), None], turn)
    case Answered(_) =>
      var items := said + [None];
      match ManageContext(cfg, turn.state.history, turn.state.messageTokens, summarize)
      case Success(c) => WorkerStep(Worker(turn.state.(history := c.history), w.unfinished - 1, true), items, turn)
      case Failure(e) =>
        var twice := items + [Some(ErrorPrefix + e), None];
        if w.unfinished == 1 then WorkerStep(Worker(turn.state, 0, false), twice, turn)
        else WorkerStep(Worker(turn.state, w.unfinished - 2, true), twice, turn)
  }

  /** As written, an answered turn whose compaction raises puts two sentinels:
      the turn's own, then an error text and another. When this input was the
      only unfinished task, the second task_done raises inside the exception
      handler and the worker thread ends. */
  lemma CompactionFailureDoublesSentinel<A>(m: Model, t: Tools<A>, cfg: Config, summarize: Summarizer, w: Worker, input: string, fuel: nat)
    requires cfg.thresholdDen > 0 && w.alive && w.unfinished > 0
    requires WorkerRounds(m, t, w, input, fuel).outcome.Answered?
    requires var turn := WorkerRounds(m, t, w, input, fuel);
             ManageContext(cfg, turn.state.history, turn.state.messageTokens, summarize).Failure?
    ensures var turn := WorkerRounds(m, t, w, input, fuel);
            var e := ManageContext(cfg, turn.state.history, turn.state.messageTokens, summarize).error;
            var r := WorkerTurn(m, t, cfg, summarize, w, input, fuel);
            && r.items == Said(turn.fragments) + [None, Some(ErrorPrefix + e), None]
            && !OneSentinel(r.items)
            && (w.unfinished == 1 ==> !r.worker.alive)
  {
    var turn := WorkerRounds(m, t, w, input, fuel);
    var e := ManageContext(cfg, turn.state.history, turn.state.messageTokens, summarize).error;
    var r := WorkerTurn(m, t, cfg, summarize, w, input, fuel);
    assert r.items == Said(turn.fragments) + [None] + [Some(ErrorPrefix + e), None];
    assert [None] + [Some(ErrorPrefix + e), None] == [None, Some(ErrorPrefix + e), None];
    TwoSentinels(r.items, Said(turn.fragments), ErrorPrefix + e);
  }

  lemma TwoSentinels(items: seq<Option<string>>, said: seq<Option<string>>, error: string)
    requires items == said + [None, Some(error), None]
    ensures !OneSentinel(items)
  {
    assert items[|said|] == None;
  }

  /** What that does to the next turn: chat_with_tts returned at the first
      sentinel, so the next call finds the error text and the second sentinel
      waiting. Unless the synthesiser raises, it speaks the stale error and
      returns after reading just those two items, before anything of its own
      turn. */
  lemma StaleErrorEndsNextTurn(tts: Tts, e: string, later: seq<Option<string>>)
    ensures var r := ChatWithTts(tts, [Some(ErrorPrefix + e), None] + later);
            r.status == Completed ==>
              && r.read == 2
              && NonSpace(Concat(r.spoken)) == NonSpace(ErrorPrefix + e)
  {
    var queue := [Some(ErrorPrefix + e), None] + later;
    var r := Render(tts, queue, "");
    RenderStopsAtSentinel(tts, queue, "");
    RenderSpeaksEverything(tts, queue, "");
    assert queue[1] == None;
    assert queue[1..][0] == None;
    assert Received(queue[1..]) == "";
    assert Received(queue) == (ErrorPrefix + e) + "";
    assert "" + Received(queue) == ErrorPrefix + e;
  }

  /** llm_worker for one input, corrected: a compaction that raises keeps the
      uncompacted history and reports nothing more on the queue, so the
      turn's items hold exactly one sentinel and `task_done` is called once. */
  function WorkerTurnFixed<A>(m: Model, t: Tools<A>, cfg: Config, summarize: Summarizer, w: Worker, input: string, fuel: nat)
    : (r: WorkerStep)
    requires cfg.thresholdDen > 0 && w.alive && w.unfinished > 0
    ensures r.turn == WorkerRounds(m, t, w, input, fuel)
    ensures r.worker.alive
    ensures !r.turn.outcome.OutOfFuel? ==> OneSentinel(r.items) && r.worker.unfinished == w.unfinished - 1
    ensures r.turn.outcome.Answered? ==> r.items == Said(r.turn.fragments) + [None]
    ensures r.turn.outcome.Raised? ==> r.items == Said(r.turn.fragments) + [Some(ErrorPrefix + r.turn.outcome.error), None]
    ensures r.turn.outcome.OutOfFuel? ==> r.items == Said(r.turn.fragments) && r.worker.unfinished == w.unfinished
    ensures w.session.history + [UserMessage(input)] <= r.turn.state.history
  {
    var turn := WorkerRounds(m, t, w, input, fuel);
    var said := Said(turn.fragments);
    match turn.outcome
    case OutOfFuel => WorkerStep(Worker(turn.state, w.unfinished, true), said, turn)
    case Raised(e) => WorkerStep(Worker(turn.state, w.unfinished - 1, true), said + [Some(ErrorPrefix + e), None], turn)
    case Answered(_) =>
      var items := said + [None];
      match ManageContext(cfg, turn.state.history, turn.state.messageTokens, summarize)
      case Success(c) => WorkerStep(Worker(turn.state.(history := c.history), w.unfinished - 1, true), items, turn)
      case Failure(_) => WorkerStep(Worker(turn.state, w.unfinished - 1, true), items, turn)
  }

  /** The corrected worker compacts once per answered turn: after a
      successful compaction the session holds the compacted history, and in
      every other case it keeps the turn's history as the rounds left it. */
  lemma WorkerTurnFixedCompacts<A>(m: Model, t: Tools<A>, cfg: Config, summarize: Summarizer, w: Worker, input: string, fuel: nat)
    requires cfg.thresholdDen > 0 && w.alive && w.unfinished > 0
    ensures var r := WorkerTurnFixed(m, t, cfg, summarize, w, input, fuel);
            var c := ManageContext(cfg, r.turn.state.history, r.turn.state.messageTokens, summarize);
            && (r.turn.outcome.Answered? && c.Success? ==> r.worker.session == r.turn.state.(history := c.value.history))
            && (!(r.turn.outcome.Answered? && c.Success?) ==> r.worker.session == r.turn.state)
  {
  }

  /** The correction changes nothing but the failed compaction: on every other
      turn the worker as written and the corrected one take the same step. */
  lemma WorkerTurnAgrees<A>(m: Model, t: Tools<A>, cfg: Config, summarize: Summarizer, w: Worker, input: string, fuel: nat)
    requires cfg.thresholdDen > 0 && w.alive && w.unfinished > 0
    requires var turn := WorkerRounds(m, t, w, input, fuel);
             !(turn.outcome.Answered? && ManageContext(cfg, turn.state.history, turn.state.messageTokens, summarize).Failure?)
    ensures WorkerTurn(m, t, cfg, summarize, w, input, fuel) == WorkerTurnFixed(m, t, cfg, summarize, w, input, fuel)
  {
  }

  /** The renderer never looks past a sentinel: whatever follows a turn's
      items on the queue does not change how the turn is rendered. */
  lemma {:induction false} RenderIgnoresLater(tts: Tts, items: seq<Option<string>>, later: seq<Option<string>>, buffer: string)
    requires OneSentinel(items) && IsStripped(buffer)
    ensures Render(tts, items + later, buffer) == Render(tts, items, buffer)
    decreases |items|
  {
    if items[0].Some? {
      var split := Split(buffer + items[0].value);
      if Speak(tts, split.0).error.None? {
        OneSentinelTail(items);
        RenderIgnoresLater(tts, items[1..], later, split.1);
      }
    }
    IgnoresLaterStep(tts, items, later, buffer);
  }

  lemma OneSentinelTail(items: seq<Option<string>>)
    requires OneSentinel(items) && items[0].Some?
    ensures OneSentinel(items[1..])
  {
    assert forall k :: 0 <= k < |items| - 2 ==> items[1..][k] == items[k + 1];
  }

  /** One item of the turn: a sentinel ends both renderings alike, and a text
      item leaves both with the same rest to render. */
  lemma IgnoresLaterStep(tts: Tts, items: seq<Option<string>>, later: seq<Option<string>>, buffer: string)
    requires items != [] && IsStripped(buffer)
    requires items[0].Some? && Speak(tts, Split(buffer + items[0].value).0).error.None? ==>
               var rest := Split(buffer + items[0].value).1;
               Render(tts, items[1..] + later, rest) == Render(tts, items[1..], rest)
    ensures Render(tts, items + later, buffer) == Render(tts, items, buffer)
  {
    var queue := items + later;
    TailOfAppend(items, later);
    if items[0].None? {
      RenderSentinel(tts, queue, buffer);
      RenderSentinel(tts, items, buffer);
    } else if Speak(tts, Split(buffer + items[0].value).0).error.None? {
      RenderText(tts, queue, buffer);
      RenderText(tts, items, buffer);
    } else {
      RenderTextFails(tts, queue, buffer);
      RenderTextFails(tts, items, buffer);
    }
  }

  /** The fragments a turn streamed, joined, are what the renderer receives
      before the sentinel. */
  lemma {:induction false} ReceivedSaid(fragments: seq<string>, tail: seq<Option<string>>)
    requires tail != [] && tail[0].None?
    ensures Received(Said(fragments) + tail) == Concat(fragments)
    decreases |fragments|
  {
    if fragments == [] {
      assert Said(fragments) + tail == tail;
    } else {
      var q := Said(fragments) + tail;
      assert q[1..] == Said(fragments[1..]) + tail;
      ReceivedSaid(fragments[1..], tail);
    }
  }

  /** A turn's items with one sentinel are read to the end and no further:
      the rendering does not time out, and when it completes it has read
      every item. */
  lemma RenderOwnTurn(tts: Tts, items: seq<Option<string>>)
    requires OneSentinel(items)
    ensures var r := ChatWithTts(tts, items);
            && r.status != TimedOut
            && (r.status == Completed ==> r.read == |items|)
  {
    RenderTimesOutWithoutSentinel(tts, items, "");
    RenderStopsAtSentinel(tts, items, "");
  }

  /** How the interactive loop ended. */
  datatype VoiceEnd = VoiceEnd(worker: Worker, pending: seq<Option<string>>, steps: seq<WorkerStep>, renders: seq<Rendered>, exited: bool)

  /** interactive_loop_with_tts with the corrected worker. For each input that
      is not an exit word, chat_with_tts puts the input (one more unfinished
      task), the worker handles it and the renderer reads the message queue:
      the items left over from earlier turns, then this turn's. A synthesiser
      exception leaves the loop. */
  function VoiceSession<A>(m: Model, t: Tools<A>, cfg: Config, summarize: Summarizer, tts: Tts,
                           w: Worker, pending: seq<Option<string>>, inputs: seq<string>, fuel: nat): (r: VoiceEnd)
    requires cfg.thresholdDen > 0 && w.alive
    ensures |r.steps| == |r.renders| <= |inputs|
    decreases |inputs|
  {
    if inputs == [] then VoiceEnd(w, pending, [], [], false)
    else if IsExit(inputs[0]) then VoiceEnd(w, pending, [], [], true)
    else
      var step := WorkerTurnFixed(m, t, cfg, summarize, w.(unfinished := w.unfinished + 1), inputs[0], fuel);
      var queue := pending + step.items;
      var rendered := ChatWithTts(tts, queue);
      var left := queue[rendered.read..];
      if rendered.status.TtsFailed? then VoiceEnd(step.worker, left, [step], [rendered], false)
      else
        var more := VoiceSession(m, t, cfg, summarize, tts, step.worker, left, inputs[1..], fuel);
        VoiceEnd(more.worker, more.pending, [step] + more.steps, [rendered] + more.renders, more.exited)
  }

  /** Each completed rendering of the session read exactly its turn's items
      and spoke the text they carry, whitespace aside. */
  predicate TurnsApart(e: VoiceEnd)
  {
    && |e.steps| == |e.renders|
    && forall k :: 0 <= k < |e.renders| && e.renders[k].status == Completed ==>
         && e.renders[k].read == |e.steps[k].items|
         && NonSpace(Concat(e.renders[k].spoken)) == NonSpace(Received(e.steps[k].items))
  }

  lemma TurnsApartCons(step: WorkerStep, rendered: Rendered, more: VoiceEnd, r: VoiceEnd)
    requires r.steps == [step] + more.steps && r.renders == [rendered] + more.renders
    requires rendered.status == Completed ==>
               rendered.read == |step.items| && NonSpace(Concat(rendered.spoken)) == NonSpace(Received(step.items))
    requires TurnsApart(more)
    ensures TurnsApart(r)
  {
    forall k | 0 <= k < |r.renders| && r.renders[k].status == Completed
      ensures r.renders[k].read == |r.steps[k].items|
      ensures NonSpace(Concat(r.renders[k].spoken)) == NonSpace(Received(r.steps[k].items))
    {
      if k > 0 {
        assert r.renders[k] == more.renders[k - 1] && r.steps[k] == more.steps[k - 1];
      }
    }
  }

  /** With the corrected worker, a session that starts with an empty message
      queue renders each turn from that turn's own items: every completed
      rendering reads exactly them and speaks the turn's streamed text (or its
      error text), whitespace aside, and nothing is left for the next turn. */
  lemma {:induction false} VoiceSessionKeepsTurnsApart<A>(m: Model, t: Tools<A>, cfg: Config, summarize: Summarizer, tts: Tts,
                                                          w: Worker, inputs: seq<string>, fuel: nat)
    requires cfg.thresholdDen > 0 && w.alive
    ensures TurnsApart(VoiceSession(m, t, cfg, summarize, tts, w, [], inputs, fuel))
    decreases |inputs|
  {
    if inputs != [] && !IsExit(inputs[0]) {
      var r := VoiceSession(m, t, cfg, summarize, tts, w, [], inputs, fuel);
      var step := WorkerTurnFixed(m, t, cfg, summarize, w.(unfinished := w.unfinished + 1), inputs[0], fuel);
      var rendered := ChatWithTts(tts, step.items);
      TurnRendered(tts, step);
      VoiceSessionUnfold(m, t, cfg, summarize, tts, w, inputs, fuel);
      if rendered.status.TtsFailed? {
        TurnsApartCons(step, rendered, VoiceEnd(step.worker, [], [], [], false), r);
      } else {
        VoiceSessionKeepsTurnsApart(m, t, cfg, summarize, tts, step.worker, inputs[1..], fuel);
        TurnsApartCons(step, rendered, VoiceSession(m, t, cfg, summarize, tts, step.worker, [], inputs[1..], fuel), r);
      }
    }
  }

  /** One turn of a session with nothing pending: the turn's items alone are
      rendered, and unless the synthesiser raised the rest of the session
      starts with nothing pending again. */
  lemma VoiceSessionUnfold<A>(m: Model, t: Tools<A>, cfg: Config, summarize: Summarizer, tts: Tts,
                              w: Worker, inputs: seq<string>, fuel: nat)
    requires cfg.thresholdDen > 0 && w.alive
    requires inputs != [] && !IsExit(inputs[0])
    requires var step := WorkerTurnFixed(m, t, cfg, summarize, w.(unfinished := w.unfinished + 1), inputs[0], fuel);
             var rendered := ChatWithTts(tts, step.items);
             !rendered.status.TtsFailed? ==> rendered.read == |step.items|
    ensures var step := WorkerTurnFixed(m, t, cfg, summarize, w.(unfinished := w.unfinished + 1), inputs[0], fuel);
            var rendered := ChatWithTts(tts, step.items);
            var r := VoiceSession(m, t, cfg, summarize, tts, w, [], inputs, fuel);
            && r.steps[0] == step && r.renders[0] == rendered
            && (rendered.status.TtsFailed? ==> r.steps == [step] && r.renders == [rendered])
            && (!rendered.status.TtsFailed? ==>
                  var more := VoiceSession(m, t, cfg, summarize, tts, step.worker, [], inputs[1..], fuel);
                  r.steps == [step] + more.steps && r.renders == [rendered] + more.renders)
  {
    var step := WorkerTurnFixed(m, t, cfg, summarize, w.(unfinished := w.unfinished + 1), inputs[0], fuel);
    assert [] + step.items == step.items;
    var rendered := ChatWithTts(tts, step.items);
    if !rendered.status.TtsFailed? {
      assert step.items[rendered.read..] == [];
    }
  }

  /** A turn's own items, rendered alone: unless the synthesiser raises, they
      are all read, and a completed rendering speaks the text they carry. */
  lemma TurnRendered(tts: Tts, step: WorkerStep)
    requires step.turn.outcome.OutOfFuel? ==> step.items == Said(step.turn.fragments)
    requires !step.turn.outcome.OutOfFuel? ==> OneSentinel(step.items)
    ensures var rendered := ChatWithTts(tts, step.items);
            && (!rendered.status.TtsFailed? ==> rendered.read == |step.items|)
            && (rendered.status == Completed ==>
                  NonSpace(Concat(rendered.spoken)) == NonSpace(Received(step.items)))
  {
    if step.turn.outcome.OutOfFuel? {
      RenderTimesOutWithoutSentinelOrSaid(tts, step.turn.fragments);
    } else {
      RenderOwnTurn(tts, step.items);
    }
  }

  /** Items without a sentinel are all read: the rendering times out, or the synthesiser raised. */
  lemma RenderTimesOutWithoutSentinelOrSaid(tts: Tts, fragments: seq<string>)
    ensures var r := ChatWithTts(tts, Said(fragments));
            r.status != Completed && (r.status == TimedOut ==> r.read == |fragments|)
  {
    RenderStopsAtSentinel(tts, Said(fragments), "");
    RenderTimesOutWithoutSentinel(tts, Said(fragments), "");
  }
}
