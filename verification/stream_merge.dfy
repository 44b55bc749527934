/** _call_llm_stream of both handlers: the streamed chunks of one model reply
    are folded into the reply's text, its tool calls (fragments merged by
    index), its finish reason and its usage. The text fragments are also
    handed on, in order, as they arrive. */
module StreamMerge {
  import opened Base
  import opened Messages

  /** A usage report; a field the provider does not send reads as 0. */
  datatype Usage = Usage(promptTokens: nat, completionTokens: nat, cacheHitTokens: nat, cacheMissTokens: nat)

  /** A chunk's delta. A null tool-call list is falsy like an empty one, so both are []. */
  datatype Delta = Delta(content: Option<string>, toolCalls: seq<ToolCall>)

  datatype Choice = Choice(delta: Option<Delta>, finishReason: Option<string>)

  /** One streamed chunk; only its first choice is read. */
  datatype Chunk = Chunk(choices: seq<Choice>, usage: Option<Usage>)

  /** A whole model reply, as the turn loop sees it. */
  datatype Reply = Reply(content: Option<string>, toolCalls: Option<seq<ToolCall>>, finishReason: Option<string>, usage: Option<Usage>)

  /** The attribute errors raised when a later fragment updates a call whose
      first fragment had no function object. */
  const NoNameError: string := "'NoneType' object has no attribute 'name'"
  const NoArgumentsError: string := "'NoneType' object has no attribute 'arguments'"

  /** The position of the stored call with this index. */
  function Find(calls: seq<ToolCall>, index: int): (r: Option<nat>)
    ensures r.Some? ==> r.value < |calls| && calls[r.value].index == index
    ensures r.None? ==> forall j :: 0 <= j < |calls| ==> calls[j].index != index
  {
    if calls == [] then None
    else if calls[0].index == index then Some(0)
    else
      match Find(calls[1..], index)
      case None => None
      case Some(p) => Some(p + 1)
  }

  /** A fragment that would overwrite a name or extend the arguments. */
  predicate Updates(d: ToolCall)
  {
    d.fn.Some? && (Truthy(d.fn.value.name) || Truthy(d.fn.value.arguments))
  }

  /** A later fragment folded into the stored call: a non-empty name or id
      overwrites, non-empty arguments are appended (null read as ""). */
  function Update(e: ToolCall, d: ToolCall): Result<ToolCall>
  {
    if Updates(d) && e.fn.None? then
      Failure(if Truthy(d.fn.value.name) then NoNameError else NoArgumentsError)
    else
      var fn' :=
        if e.fn.None? then None
        else
          var f := e.fn.value;
          var name := if d.fn.Some? && Truthy(d.fn.value.name) then d.fn.value.name else f.name;
          var args :=
            if d.fn.Some? && Truthy(d.fn.value.arguments) then Some(OrElse(f.arguments, "") + d.fn.value.arguments.value)
            else f.arguments;
          Some(FunctionCall(name, args));
      Success(ToolCall(e.index, if Truthy(d.id) then d.id else e.id, fn'))
  }

  /** One fragment: a new index is stored as it came, a known one is updated in place. */
  function MergeFragment(calls: seq<ToolCall>, d: ToolCall): Result<seq<ToolCall>>
  {
    match Find(calls, d.index)
    case None => Success(calls + [d])
    case Some(p) =>
      match Update(calls[p], d)
      case Failure(e) => Failure(e)
      case Success(c) => Success(calls[p := c])
  }

  /** The fragments folded into `calls` in arrival order. */
  function MergeInto(calls: seq<ToolCall>, ds: seq<ToolCall>): Result<seq<ToolCall>>
  {
    if ds == [] then Success(calls)
    else
      match MergeInto(calls, ds[..|ds| - 1])
      case Failure(e) => Failure(e)
      case Success(cs) => MergeFragment(cs, ds[|ds| - 1])
  }

  lemma {:induction false} MergeIntoAppend(calls: seq<ToolCall>, a: seq<ToolCall>, b: seq<ToolCall>)
    ensures MergeInto(calls, a).Failure? ==> MergeInto(calls, a + b).Failure?
    ensures MergeInto(calls, a).Success? ==> MergeInto(calls, a + b) == MergeInto(MergeInto(calls, a).value, b)
    decreases |b|
  {
    if b == [] {
      assert a + b == a;
    } else {
      assert (a + b)[..|a + b| - 1] == a + b[..|b| - 1];
      MergeIntoAppend(calls, a, b[..|b| - 1]);
    }
  }

  // ---- The per-index view of a fragment stream ----

  /** The distinct indices in order of first appearance. */
  function Order(ds: seq<ToolCall>): seq<int>
  {
    if ds == [] then []
    else
      var o := Order(ds[..|ds| - 1]);
      if ds[|ds| - 1].index in o then o else o + [ds[|ds| - 1].index]
  }

  /** The fragments carrying index `i`, in arrival order. */
  function Frags(ds: seq<ToolCall>, i: int): seq<ToolCall>
  {
    if ds == [] then []
    else Frags(ds[..|ds| - 1], i) + (if ds[|ds| - 1].index == i then [ds[|ds| - 1]] else [])
  }

  /** The last truthy value of `xs`, or `default` when there is none. */
  function LastTruthyOr(xs: seq<Option<string>>, default: Option<string>): Option<string>
  {
    if xs == [] then default
    else if Truthy(xs[|xs| - 1]) then xs[|xs| - 1]
    else LastTruthyOr(xs[..|xs| - 1], default)
  }

  function Ids(fs: seq<ToolCall>): seq<Option<string>>
  {
    if fs == [] then [] else Ids(fs[..|fs| - 1]) + [fs[|fs| - 1].id]
  }

  /** The names carried by fragments that have a function object. */
  function Names(fs: seq<ToolCall>): seq<Option<string>>
  {
    if fs == [] then []
    else Names(fs[..|fs| - 1]) + (if fs[|fs| - 1].fn.Some? then [fs[|fs| - 1].fn.value.name] else [])
  }

  /** The argument texts of fragments that have a function object, joined; null reads as "". */
  function ArgsText(fs: seq<ToolCall>): string
  {
    if fs == [] then ""
    else ArgsText(fs[..|fs| - 1]) + (if fs[|fs| - 1].fn.Some? then OrElse(fs[|fs| - 1].fn.value.arguments, "") else "")
  }

  /** The call that the fragments of one index should merge into: the first
      fragment's index, the last non-empty id and name (else the first
      fragment's), and all argument texts in arrival order. */
  function Expected(fs: seq<ToolCall>): ToolCall
    requires fs != []
  {
    var first := fs[0];
    var fn' :=
      if first.fn.None? then None
      else
        var args := if first.fn.value.arguments.None? && ArgsText(fs) == "" then None else Some(ArgsText(fs));
        Some(FunctionCall(LastTruthyOr(Names(fs), first.fn.value.name), args));
    ToolCall(first.index, LastTruthyOr(Ids(fs), first.id), fn')
  }

  /** Fragment `k` updates a call whose first fragment had no function object. */
  predicate Orphan(ds: seq<ToolCall>, k: int)
    requires 0 <= k < |ds|
  {
    var earlier := Frags(ds[..k], ds[k].index);
    Updates(ds[k]) && earlier != [] && earlier[0].fn.None?
  }

  lemma LastTruthySnoc(xs: seq<Option<string>>, x: Option<string>, default: Option<string>)
    ensures LastTruthyOr(xs + [x], default) == if Truthy(x) then x else LastTruthyOr(xs, default)
  {
    assert (xs + [x])[..|xs|] == xs;
  }

  /** A fragment on its own merges into itself. */
  lemma FragsOfSingle(d: ToolCall)
    ensures Frags([d], d.index) == [d]
    ensures Expected([d]) == d
  {
    assert [d][..0] == [];
    assert Ids([d]) == [d.id];
    LastTruthySnoc([], d.id, d.id);
    if d.fn.Some? {
      assert Names([d]) == [d.fn.value.name];
      LastTruthySnoc([], d.fn.value.name, d.fn.value.name);
      assert ArgsText([d]) == OrElse(d.fn.value.arguments, "");
    }
  }

  /** Appending a fragment to an index's fragments updates the expected call
      exactly as the handler updates the stored one. */
  lemma ExpectedSnoc(fs: seq<ToolCall>, d: ToolCall)
    requires fs != [] && d.index == fs[0].index
    requires !(Updates(d) && fs[0].fn.None?)
    ensures Update(Expected(fs), d) == Success(Expected(fs + [d]))
  {
    var gs := fs + [d];
    assert gs[..|gs| - 1] == fs;
    assert gs[0] == fs[0];
    assert Ids(gs) == Ids(fs) + [d.id];
    LastTruthySnoc(Ids(fs), d.id, fs[0].id);
    if fs[0].fn.Some? {
      var first := fs[0].fn.value;
      assert OrElse(Expected(fs).fn.value.arguments, "") == ArgsText(fs);
      if d.fn.Some? {
        assert Names(gs) == Names(fs) + [d.fn.value.name];
        LastTruthySnoc(Names(fs), d.fn.value.name, first.name);
        assert ArgsText(gs) == ArgsText(fs) + OrElse(d.fn.value.arguments, "");
        if Truthy(d.fn.value.arguments) {
          assert ArgsText(gs) != "";
        } else {
          assert ArgsText(gs) == ArgsText(fs);
        }
      } else {
        assert Names(gs) == Names(fs);
        assert ArgsText(gs) == ArgsText(fs);
      }
    }
  }

  lemma {:induction false} FragsIndex(ds: seq<ToolCall>, i: int)
    ensures forall j :: 0 <= j < |Frags(ds, i)| ==> Frags(ds, i)[j].index == i
    ensures Frags(ds, i) == [] <==> i !in Order(ds)
  {
    if ds != [] {
      FragsIndex(ds[..|ds| - 1], i);
    }
  }

  /** The indices of Order are distinct. */
  lemma {:induction false} OrderDistinct(ds: seq<ToolCall>)
    ensures forall i, j :: 0 <= i < j < |Order(ds)| ==> Order(ds)[i] != Order(ds)[j]
  {
    if ds != [] {
      OrderDistinct(ds[..|ds| - 1]);
    }
  }

  /** `r` is the merge of `ds` seen index by index: one call per distinct index
      in order of first appearance, each the expected merge of its fragments. */
  predicate MergedAs(ds: seq<ToolCall>, r: seq<ToolCall>)
  {
    && |r| == |Order(ds)|
    && (forall j :: 0 <= j < |r| ==> r[j].index == Order(ds)[j])
    && (forall j :: 0 <= j < |r| ==> Frags(ds, r[j].index) != [] && r[j] == Expected(Frags(ds, r[j].index)))
  }

  lemma FragsSnoc(p: seq<ToolCall>, d: ToolCall, i: int)
    ensures Frags(p + [d], i) == Frags(p, i) + (if d.index == i then [d] else [])
  {
    assert (p + [d])[..|p|] == p;
  }

  lemma OrderSnoc(p: seq<ToolCall>, d: ToolCall)
    ensures Order(p + [d]) == if d.index in Order(p) then Order(p) else Order(p) + [d.index]
  {
    assert (p + [d])[..|p|] == p;
  }

  /** The first fragment of an index is that index's whole merge so far. */
  lemma NewIndexEntry(p: seq<ToolCall>, d: ToolCall)
    requires Frags(p, d.index) == []
    ensures Frags(p + [d], d.index) != [] && d == Expected(Frags(p + [d], d.index))
  {
    FragsSnoc(p, d, d.index);
    assert Frags(p + [d], d.index) == [d];
    FragsOfSingle(d);
  }

  /** A fragment of another index leaves this index's merge as it was. */
  lemma OtherIndexEntry(p: seq<ToolCall>, d: ToolCall, x: ToolCall)
    requires x.index != d.index && Frags(p, x.index) != [] && x == Expected(Frags(p, x.index))
    ensures Frags(p + [d], x.index) != [] && x == Expected(Frags(p + [d], x.index))
  {
    FragsSnoc(p, d, x.index);
    assert Frags(p + [d], x.index) == Frags(p, x.index);
  }

  /** A fragment of a new index adds one call at the end. */
  lemma MergeStepNew(p: seq<ToolCall>, d: ToolCall, r: seq<ToolCall>)
    requires MergedAs(p, r) && Find(r, d.index).None?
    ensures Frags(p, d.index) == []
    ensures MergedAs(p + [d], r + [d])
  {
    var ds := p + [d];
    var o := Order(p);
    assert d.index !in o by {
      forall j | 0 <= j < |o| ensures o[j] != d.index {
        assert o[j] == r[j].index;
      }
    }
    FragsIndex(p, d.index);
    OrderSnoc(p, d);
    assert Order(ds) == o + [d.index];
    var r2 := r + [d];
    forall j | 0 <= j < |r2|
      ensures r2[j].index == Order(ds)[j]
      ensures Frags(ds, r2[j].index) != [] && r2[j] == Expected(Frags(ds, r2[j].index))
    {
      if j == |r| {
        NewIndexEntry(p, d);
      } else {
        OtherIndexEntry(p, d, r[j]);
      }
    }
  }

  lemma MergeStepKnown(p: seq<ToolCall>, d: ToolCall, r: seq<ToolCall>, q: nat)
    requires MergedAs(p, r) && Find(r, d.index) == Some(q)
    ensures Frags(p, d.index) != [] && r[q] == Expected(Frags(p, d.index))
    ensures !(Updates(d) && Frags(p, d.index)[0].fn.None?) ==>
              && Update(r[q], d) == Success(Expected(Frags(p + [d], d.index)))
              && MergedAs(p + [d], r[q := Expected(Frags(p + [d], d.index))])
  {
    var fs := Frags(p, d.index);
    FragsIndex(p, d.index);
    assert fs[0].index == d.index;
    FragsSnoc(p, d, d.index);
    if !(Updates(d) && fs[0].fn.None?) {
      ExpectedSnoc(fs, d);
      OrderSnoc(p, d);
      MergedAsReplace(p, d, r, q);
    }
  }

  /** A fragment of a known index changes only that index's call. */
  lemma MergedAsReplace(p: seq<ToolCall>, d: ToolCall, r: seq<ToolCall>, q: nat)
    requires MergedAs(p, r) && q < |r| && r[q].index == d.index
    requires Order(p + [d]) == Order(p)
    requires Frags(p + [d], d.index) == Frags(p, d.index) + [d]
    ensures MergedAs(p + [d], r[q := Expected(Frags(p + [d], d.index))])
  {
    var ds := p + [d];
    OrderDistinct(p);
    var r2 := r[q := Expected(Frags(ds, d.index))];
    forall j | 0 <= j < |r2|
      ensures Frags(ds, r2[j].index) != [] && r2[j] == Expected(Frags(ds, r2[j].index))
    {
      if j != q {
        assert r[j].index != d.index by {
          assert r[j].index == Order(p)[j] && r[q].index == Order(p)[q];
        }
        FragsSnoc(p, d, r[j].index);
        assert Frags(ds, r[j].index) == Frags(p, r[j].index);
        assert r2[j] == r[j];
      } else {
        var fs := Frags(p, d.index);
        assert fs != [];
        FragsIndex(p, d.index);
        assert (fs + [d])[0] == fs[0];
        assert r2[j] == Expected(fs + [d]);
        assert r2[j].index == d.index;
      }
    }
  }

  /** Some fragment of `ds` updates a call whose first fragment had no function object. */
  predicate HasOrphan(ds: seq<ToolCall>)
  {
    exists k :: 0 <= k < |ds| && Orphan(ds, k)
  }

  /** A fragment appended to the stream leaves the earlier fragments' orphan status as it was. */
  lemma HasOrphanSnoc(p: seq<ToolCall>, d: ToolCall)
    ensures HasOrphan(p + [d]) <==> HasOrphan(p) || Orphan(p + [d], |p|)
  {
    var ds := p + [d];
    assert forall k :: 0 <= k < |p| ==> ds[..k] == p[..k] && ds[k] == p[k];
    assert forall k :: 0 <= k < |p| ==> (Orphan(ds, k) <==> Orphan(p, k));
    if HasOrphan(p) {
      var k :| 0 <= k < |p| && Orphan(p, k);
      assert Orphan(ds, k);
    }
  }

  /** One more fragment keeps the merge in step with its per-index view. */
  lemma MergeSpecStep(p: seq<ToolCall>, d: ToolCall)
    requires MergeInto([], p).Failure? <==> HasOrphan(p)
    requires MergeInto([], p).Success? ==> MergedAs(p, MergeInto([], p).value)
    ensures MergeInto([], p + [d]).Failure? <==> HasOrphan(p + [d])
    ensures MergeInto([], p + [d]).Success? ==> MergedAs(p + [d], MergeInto([], p + [d]).value)
  {
    var ds := p + [d];
    assert ds[..|ds| - 1] == p;
    HasOrphanSnoc(p, d);
    assert ds[..|p|] == p;
    if MergeInto([], p).Success? {
      var r := MergeInto([], p).value;
      assert MergeInto([], ds) == MergeFragment(r, d);
      match Find(r, d.index)
      case None =>
        MergeStepNew(p, d, r);
        assert !Orphan(ds, |p|);
      case Some(q) =>
        MergeStepKnown(p, d, r, q);
        assert Orphan(ds, |p|) <==> Updates(d) && Frags(p, d.index)[0].fn.None?;
    }
  }

  /** The merge of a whole fragment stream, seen index by index (MergedAs); and
      the merge fails exactly when some fragment updates a call whose first
      fragment had no function object. */
  lemma {:induction false} MergeSpec(ds: seq<ToolCall>)
    ensures MergeInto([], ds).Failure? <==> HasOrphan(ds)
    ensures MergeInto([], ds).Success? ==> MergedAs(ds, MergeInto([], ds).value)
  {
    if ds != [] {
      var p := ds[..|ds| - 1];
      assert ds == p + [ds[|ds| - 1]];
      MergeSpec(p);
      MergeSpecStep(p, ds[|ds| - 1]);
    }
  }


  // ---- Folding the chunks of one reply ----

  /** What the stream loop has gathered so far. */
  datatype Gathered = Gathered(
    content: string,
    emitted: seq<string>,
    calls: seq<ToolCall>,
    finishReason: Option<string>,
    usage: Option<Usage>)

  /** The loop state after some chunks, and the exception that stopped it, if any. */
  datatype Gathering = Gathering(state: Gathered, error: Option<string>)

  /** The chunk's text fragment, when its first choice carries a non-empty one. */
  function ChunkText(c: Chunk): seq<string>
  {
    if c.choices != [] && c.choices[0].delta.Some? && Truthy(c.choices[0].delta.value.content)
    then [c.choices[0].delta.value.content.value] else []
  }

  /** The chunk's tool-call fragments. */
  function ChunkFragments(c: Chunk): seq<ToolCall>
  {
    if c.choices != [] && c.choices[0].delta.Some? then c.choices[0].delta.value.toolCalls else []
  }

  /** The chunk carries a finish reason. */
  predicate Finishes(c: Chunk)
  {
    c.choices != [] && Truthy(c.choices[0].finishReason)
  }

  /** One chunk: append and pass on its text, merge its tool-call fragments,
      and take its finish reason and usage when it carries a finish reason. */
  function Absorb(g: Gathered, chunk: Chunk): Gathering
  {
    var text := ChunkText(chunk);
    var g1 := if text != [] then g.(content := g.content + text[0], emitted := g.emitted + text) else g;
    match MergeInto(g1.calls, ChunkFragments(chunk))
    case Failure(e) => Gathering(g1, Some(e))
    case Success(cs) =>
      var g2 := g1.(calls := cs);
      if Finishes(chunk) then
        Gathering(g2.(finishReason := chunk.choices[0].finishReason, usage := chunk.usage), None)
      else Gathering(g2, None)
  }

  /** The chunks absorbed in order, stopping at the first exception. */
  function Gather(chunks: seq<Chunk>): Gathering
  {
    if chunks == [] then Gathering(Gathered("", [], [], None, None), None)
    else
      var g := Gather(chunks[..|chunks| - 1]);
      if g.error.Some? then g else Absorb(g.state, chunks[|chunks| - 1])
  }

  // ---- Reference definitions over the whole chunk list ----

  /** The non-empty text fragments of the chunks, in order. */
  function Pieces(chunks: seq<Chunk>): seq<string>
  {
    if chunks == [] then [] else Pieces(chunks[..|chunks| - 1]) + ChunkText(chunks[|chunks| - 1])
  }

  /** All tool-call fragments of the chunks, in arrival order. */
  function AllFragments(chunks: seq<Chunk>): seq<ToolCall>
  {
    if chunks == [] then [] else AllFragments(chunks[..|chunks| - 1]) + ChunkFragments(chunks[|chunks| - 1])
  }

  /** The last chunk that carries a finish reason. */
  function LastFinished(chunks: seq<Chunk>): (r: Option<Chunk>)
    ensures r.Some? ==> r.value in chunks && Finishes(r.value)
  {
    if chunks == [] then None
    else if Finishes(chunks[|chunks| - 1]) then Some(chunks[|chunks| - 1])
    else LastFinished(chunks[..|chunks| - 1])
  }

  /** Absorbing a chunk keeps the text equal to the join of the pieces handed on. */
  lemma AbsorbText(g: Gathered, c: Chunk)
    requires g.content == Concat(g.emitted)
    ensures Absorb(g, c).state.content == Concat(Absorb(g, c).state.emitted)
  {
    var text := ChunkText(c);
    if text != [] {
      ConcatAppend(g.emitted, text);
      assert Concat(text) == text[0] + Concat([]);
    }
  }

  /** The text gathered is the join of the pieces handed on, even when a chunk raised. */
  lemma {:induction false} GatherText(chunks: seq<Chunk>)
    ensures Gather(chunks).state.content == Concat(Gather(chunks).state.emitted)
  {
    if chunks != [] {
      var p := chunks[..|chunks| - 1];
      GatherText(p);
      if Gather(p).error.None? {
        AbsorbText(Gather(p).state, chunks[|chunks| - 1]);
      }
    }
  }

  /** What gathering the chunks should give, by the reference definitions. */
  predicate GatheredAs(chunks: seq<Chunk>, g: Gathering)
  {
    && (g.error.None? <==> MergeInto([], AllFragments(chunks)).Success?)
    && (g.error.None? ==>
          && g.state.emitted == Pieces(chunks)
          && g.state.calls == MergeInto([], AllFragments(chunks)).value
          && g.state.finishReason == (if LastFinished(chunks).Some? then LastFinished(chunks).value.choices[0].finishReason else None)
          && g.state.usage == (if LastFinished(chunks).Some? then LastFinished(chunks).value.usage else None))
  }

  lemma GatherStep(chunks: seq<Chunk>)
    requires chunks != [] && GatheredAs(chunks[..|chunks| - 1], Gather(chunks[..|chunks| - 1]))
    ensures GatheredAs(chunks, Gather(chunks))
  {
    var p := chunks[..|chunks| - 1];
    var c := chunks[|chunks| - 1];
    var g0 := Gather(p);
    assert Gather(chunks) == if g0.error.Some? then g0 else Absorb(g0.state, c);
    assert AllFragments(chunks) == AllFragments(p) + ChunkFragments(c);
    assert Pieces(chunks) == Pieces(p) + ChunkText(c);
    assert LastFinished(chunks) == if Finishes(c) then Some(c) else LastFinished(p);
    MergeIntoAppend([], AllFragments(p), ChunkFragments(c));
    if g0.error.None? {
      AbsorbSpec(g0.state, c);
    }
  }

  /** One chunk absorbed: its text is passed on, its fragments merged, and
      its finish reason and usage taken when it carries a finish reason. */
  lemma AbsorbSpec(g: Gathered, c: Chunk)
    ensures Absorb(g, c).error.None? <==> MergeInto(g.calls, ChunkFragments(c)).Success?
    ensures Absorb(g, c).error.None? ==>
              var a := Absorb(g, c).state;
              && a.emitted == g.emitted + ChunkText(c)
              && a.calls == MergeInto(g.calls, ChunkFragments(c)).value
              && a.finishReason == (if Finishes(c) then c.choices[0].finishReason else g.finishReason)
              && a.usage == (if Finishes(c) then c.usage else g.usage)
  {
    assert g.emitted + [] == g.emitted;
  }

  /** When no chunk raises, the pieces handed on are the chunks' non-empty
      text fragments in order, the calls are the merge of all fragments, and
      the finish reason and usage come from the last chunk that carried a
      finish reason; a chunk raises exactly when the merge of all fragments fails. */
  lemma {:induction false} GatherSpec(chunks: seq<Chunk>)
    ensures GatheredAs(chunks, Gather(chunks))
  {
    if chunks != [] {
      GatherSpec(chunks[..|chunks| - 1]);
      GatherStep(chunks);
    }
  }

  /** A stream as the model delivers it: the chunks it yields, then possibly an exception. */
  datatype Stream = Stream(chunks: seq<Chunk>, error: Option<string>)

  /** What one model call produced: the text fragments handed on while it ran,
      and the reply, or the exception it raised. */
  datatype ModelCall = ModelCall(fragments: seq<string>, reply: Result<Reply>)

  /** _call_llm_stream: the text is always a string; tool_calls is None when no
      call was gathered. */
  function CallLlmStream(s: Stream): ModelCall
  {
    var g := Gather(s.chunks);
    if g.error.Some? then ModelCall(g.state.emitted, Failure(g.error.value))
    else if s.error.Some? then ModelCall(g.state.emitted, Failure(s.error.value))
    else
      var calls := g.state.calls;
      ModelCall(g.state.emitted, Success(Reply(Some(g.state.content), if calls == [] then None else Some(calls), g.state.finishReason, g.state.usage)))
  }

  /** A streamed reply succeeds exactly when the stream did not raise and the
      fragments merge; its text is then the join of the pieces handed on,
      which are the chunks' non-empty text fragments, and its tool calls are
      the merge of all fragments, or None when there are none. */
  lemma CallLlmStreamSpec(s: Stream)
    ensures var m := CallLlmStream(s);
            && (m.reply.Success? ==> m.reply.value.content == Some(Concat(m.fragments)))
            && (m.reply.Success? <==> s.error.None? && MergeInto([], AllFragments(s.chunks)).Success?)
            && (m.reply.Success? ==>
                  && m.fragments == Pieces(s.chunks)
                  && (m.reply.value.toolCalls.None? <==> MergeInto([], AllFragments(s.chunks)).value == [])
                  && (m.reply.value.toolCalls.Some? ==> m.reply.value.toolCalls.value == MergeInto([], AllFragments(s.chunks)).value))
  {
    GatherText(s.chunks);
    GatherSpec(s.chunks);
  }
}
