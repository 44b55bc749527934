/** Worked examples: the documented behaviour of the core on small concrete
    inputs, stated against the general model. */
module Scenarios {
  import opened Base
  import opened Messages
  import opened ContextManager
  import opened ToolGateway
  import opened StreamMerge
  import opened Sentences
  import opened Rendering
  import opened Calculator

  /** The first terminator is the one with none before it. */
  lemma FirstTerminatorAt(s: string, i: nat)
    requires i < |s| && IsTerminator(s[i]) && NoTerminator(s[..i])
    ensures FirstTerminator(s) == Some(i)
  {
    assert !NoTerminator(s);
  }

  /** A piece that ends in its only terminator is split off whole when the
      text after it does not continue the run. */
  lemma SplitOffPiece(piece: string, rest: string)
    requires |piece| > 0 && NoTerminator(piece[..|piece| - 1]) && IsTerminator(piece[|piece| - 1])
    requires rest == [] || !IsTerminator(rest[0])
    ensures TrailingRun(piece)
    ensures var sentence := Close(piece);
            Split(piece + rest) == (Lead(sentence) + Split(rest).0, Split(rest).1)
  {
    var t := piece + rest;
    var i := |piece| - 1;
    assert t[..i] == piece[..i];
    FirstTerminatorAt(t, i);
    assert RunEnd(t, i + 1) == i + 1;
    assert t[..i + 1] == piece && t[i + 1..] == rest;
    FirstPiece(t, i, i + 1);
  }

  /** One leading space is stripped off. */
  lemma StripLeadingSpace(s: string)
    requires |s| >= 2 && s[0] == ' ' && !IsSpace(s[1]) && !IsSpace(s[|s| - 1])
    ensures Strip(s) == s[1..]
  {
    assert TrimStart(s[1..]) == s[1..];
    assert TrimStart(s) == s[1..];
  }

  /** One trailing space or line break is stripped off. */
  lemma StripTrailingSpace(s: string)
    requires |s| >= 2 && IsSpace(s[|s| - 1]) && !IsSpace(s[0]) && !IsSpace(s[|s| - 2])
    ensures Strip(s) == s[..|s| - 1]
  {
    assert TrimStart(s) == s;
    assert TrimEnd(s[..|s| - 1]) == s[..|s| - 1];
  }

  lemma Single(whole: (seq<string>, string), rest: (seq<string>, string), sentence: string, remainder: string)
    requires whole == ([sentence] + rest.0, rest.1) && rest == ([], remainder)
    ensures whole == ([sentence], remainder)
  {
    assert [sentence] + [] == [sentence];
  }

  lemma Pair(whole: (seq<string>, string), rest: (seq<string>, string), first: string, second: string, remainder: string)
    requires whole == ([first] + rest.0, rest.1) && rest == ([second], remainder)
    ensures whole == ([first, second], remainder)
  {
    assert [first] + [second] == [first, second];
  }

  /** `piece` ends in its only terminator, which the next text does not continue. */
  predicate EndsOnce(piece: string, next: string)
  {
    && |piece| > 0 && NoTerminator(piece[..|piece| - 1]) && IsTerminator(piece[|piece| - 1])
    && TrailingRun(piece)
    && (next == [] || !IsTerminator(next[0]))
  }

  /** Two single-terminator pieces and a tail without terminators split into
      the two closed pieces and the stripped tail. */
  lemma SplitTwoPieces(a: string, b: string, c: string)
    requires EndsOnce(a, b + c) && EndsOnce(b, c) && NoTerminator(c)
    requires Close(a) != [] && Close(b) != []
    ensures Split(a + (b + c)) == ([Close(a), Close(b)], Strip(c))
  {
    SplitNoTerminator(c);
    SplitOffPiece(b, c);
    Single(Split(b + c), Split(c), Close(b), Strip(c));
    SplitOffPiece(a, b + c);
    Pair(Split(a + (b + c)), Split(b + c), Close(a), Close(b), Strip(c));
  }

  /** A piece whose only terminator is its last character is a trailing run. */
  lemma LastTerminatorOnly(piece: string)
    requires |piece| > 0 && NoTerminator(piece[..|piece| - 1]) && IsTerminator(piece[|piece| - 1])
    ensures TrailingRun(piece)
  {
    FirstPiece(piece, |piece| - 1, |piece|);
    assert piece[..|piece|] == piece;
  }

  lemma HelloWorld(a: string, next: string)
    requires a == "Hello world." && (next == [] || !IsTerminator(next[0]))
    ensures EndsOnce(a, next) && Close(a) == "Hello world."
  {
    var u := a[..|a| - 1];
    assert NoTerminator(u) by {
      forall k | 0 <= k < |u| ensures !IsTerminator(u[k]) {
      }
    }
    LastTerminatorOnly(a);
    assert IsStripped(a);
  }

  lemma HowAreYou(b: string, next: string)
    requires b == " How are you?" && (next == [] || !IsTerminator(next[0]))
    ensures EndsOnce(b, next) && Close(b) == "How are you?"
  {
    var u := b[..|b| - 1];
    assert NoTerminator(u) by {
      forall k | 0 <= k < |u| ensures !IsTerminator(u[k]) {
      }
    }
    LastTerminatorOnly(b);
    StripLeadingSpace(b);
  }

  lemma IAm(c: string)
    requires c == " I am"
    ensures NoTerminator(c) && Strip(c) == "I am"
  {
    forall k | 0 <= k < |c| ensures !IsTerminator(c[k]) {
    }
    StripLeadingSpace(c);
  }

  /** "Hello world. How are you? I am": two complete sentences are emitted and
      the unfinished clause is kept, stripped. */
  lemma SplitExample(a: string, b: string, c: string)
    requires a == "Hello world." && b == " How are you?" && c == " I am"
    ensures Split(a + (b + c)) == (["Hello world.", "How are you?"], "I am")
  {
    assert (b + c)[0] == b[0];
    HelloWorld(a, b + c);
    HowAreYou(b, c);
    IAm(c);
    SplitTwoPieces(a, b, c);
  }

  /** "Hello\n": the line break ends the piece and the strip then removes
      it, so the one sentence emitted carries no terminator. */
  lemma LineBreakStripped(h: string)
    requires h == "Hello\n"
    ensures Split(h) == (["Hello"], "")
    ensures NoTerminator(Split(h).0[0])
  {
    var u := h[..|h| - 1];
    assert NoTerminator(u) by {
      forall k | 0 <= k < |u| ensures !IsTerminator(u[k]) {
      }
    }
    LastTerminatorOnly(h);
    StripTrailingSpace(h);
    assert Close(h) == u == "Hello";
    SplitOnePiece(h);
  }

  /** "a..": the two full stops form one run, so at most one sentence is
      emitted; a split into "a." and "." is ruled out. */
  lemma OneRunOneSentence(t: string)
    requires t == "a.."
    ensures |Split(t).0| <= 1
  {
    assert !EndsRun(t, 1) && !EndsRun(t, 2) && EndsRun(t, 3);
    assert RunsAfter(t, 3) == 0;
    assert RunsAfter(t, 2) == 1;
    assert RunsAfter(t, 1) == 1;
    assert RunsAfter(t, 0) == 1;
    SplitCount(t);
  }

  /** A piece already stripped closes to itself. */
  lemma CloseStripped(p: string)
    requires TrailingRun(p) && IsStripped(p)
    ensures Close(p) == p
  {
  }

  lemma OnePieceEnd(p: string)
    requires EndsOnce(p, "")
    ensures FirstTerminator(p).Some? && PieceEnd(p) == |p|
  {
    FirstTerminatorAt(p, |p| - 1);
    assert RunEnd(p, |p|) == |p|;
  }

  /** A text that is one piece ending in its only terminator is one sentence. */
  lemma SplitOnePiece(p: string)
    requires EndsOnce(p, "") && Close(p) != []
    ensures Split(p) == ([Close(p)], "")
  {
    SplitOffPiece(p, "");
    assert p + "" == p;
    SplitNoTerminator("");
    Single(Split(p), Split(""), Close(p), "");
  }

  /** A fragment that completes the buffer into one sentence, then the
      sentinel: that sentence is all that is spoken. */
  lemma RenderCompletes(tts: Tts, buffer: string, y: string)
    requires forall t :: tts(t).Success?
    requires IsStripped(buffer)
    requires EndsOnce(buffer + y, "") && IsStripped(buffer + y)
    ensures Render(tts, [Some(y), None], buffer).spoken == [buffer + y]
  {
    var joined := buffer + y;
    CloseStripped(joined);
    SplitOnePiece(joined);
    RenderOneSentence(tts, buffer, y, joined);
  }

  /** A fragment that leaves exactly one sentence and no remainder, then the
      sentinel: that sentence is all that is spoken. */
  lemma RenderOneSentence(tts: Tts, buffer: string, y: string, sentence: string)
    requires IsStripped(buffer)
    requires Split(buffer + y) == ([sentence], "") && tts(sentence).Success?
    ensures Render(tts, [Some(y), None], buffer).spoken == [sentence]
  {
    var q := [Some(y), None];
    SpeakSucceeds(tts, [sentence]);
    RenderText(tts, q, buffer);
    assert q[1..] == [None];
    RenderSentinel(tts, q[1..], "");
    assert [sentence] + [] == [sentence];
  }

  /** Two fragments and the sentinel, when the first has no terminator and the
      kept remainder followed by the second is one stripped sentence: that
      joined text is the only thing spoken. */
  lemma RenderTwoFragments(tts: Tts, x: string, y: string)
    requires forall t :: tts(t).Success?
    requires NoTerminator(x)
    requires EndsOnce(Strip(x) + y, "") && IsStripped(Strip(x) + y)
    ensures ChatWithTts(tts, [Some(x), Some(y), None]).spoken == [Strip(x) + y]
  {
    var q := [Some(x), Some(y), None];
    assert "" + x == x;
    SplitNoTerminator(x);
    RenderText(tts, q, "");
    assert q[1..] == [Some(y), None];
    RenderCompletes(tts, Strip(x), y);
    assert [] + [Strip(x) + y] == [Strip(x) + y];
  }

  lemma HelloSpace(a: string)
    requires a == "Hello "
    ensures NoTerminator(a) && Strip(a) == "Hello"
  {
    assert NoTerminator(a) by {
      forall k | 0 <= k < |a| ensures !IsTerminator(a[k]) {
      }
    }
    StripTrailingSpace(a);
  }

  lemma HelloWorldJoined(j: string)
    requires j == "Helloworld."
    ensures EndsOnce(j, "") && IsStripped(j)
  {
    var u := j[..|j| - 1];
    assert NoTerminator(u) by {
      forall k | 0 <= k < |u| ensures !IsTerminator(u[k]) {
      }
    }
    LastTerminatorOnly(j);
  }

  /** Streaming does not always match splitting the whole text: the buffer
      keeps the stripped remainder, so when "Hello " and "world." arrive as two
      fragments the space between them is lost and the synthesiser hears
      "Helloworld.", where the whole text splits into "Hello world.". */
  lemma FragmentBoundaryDropsSpace(tts: Tts, a: string, b: string)
    requires a == "Hello " && b == "world."
    requires forall t :: tts(t).Success?
    ensures ChatWithTts(tts, [Some(a), Some(b), None]).spoken == ["Helloworld."]
    ensures Split(a + b).0 == ["Hello world."]
  {
    FragmentsSpoken(tts, a, b);
    WholeTextSplit(a, b);
  }

  lemma FragmentsSpoken(tts: Tts, a: string, b: string)
    requires a == "Hello " && b == "world."
    requires forall t :: tts(t).Success?
    ensures ChatWithTts(tts, [Some(a), Some(b), None]).spoken == ["Helloworld."]
  {
    HelloSpace(a);
    assert "Hello" + b == "Helloworld.";
    HelloWorldJoined("Hello" + b);
    RenderTwoFragments(tts, a, b);
  }

  lemma WholeTextSplit(a: string, b: string)
    requires a == "Hello " && b == "world."
    ensures Split(a + b).0 == ["Hello world."]
  {
    assert a + b == "Hello world.";
    HelloWorld(a + b, "");
    SplitOnePiece(a + b);
  }

  /** The whitelist { calc: enabled, tools: [add] }. */
  function CalcOnly(): Whitelist
  {
    Some(WhitelistDoc(Given(map["calc" := Some(ServerPolicy(Given(true), Missing, Given(["add"])))]), false))
  }

  lemma CalcPolicy()
    ensures Readable(CalcOnly().value, "calc") && Readable(CalcOnly().value, "other")
    ensures Permits(CalcOnly().value, "calc", "add")
    ensures !Permits(CalcOnly().value, "calc", "minus")
    ensures !Permits(CalcOnly().value, "other", "add")
  {
    var servers := Servers(CalcOnly().value);
    assert "calc" in servers && servers["calc"].value.tools == Given(["add"]);
    assert "minus" != "add" by {
      assert "minus"[0] != "add"[0];
    }
    assert "other" !in servers by {
      assert "other"[0] != "calc"[0];
    }
  }

  /** With the calc-only whitelist, calc_add is allowed, calc_minus is not,
      and other_add is not because namespace `other` is absent. */
  lemma WhitelistExample(add: string, minus: string, other: string)
    requires add == "calc" + "_" + "add" && minus == "calc" + "_" + "minus" && other == "other" + "_" + "add"
    ensures IsToolAllowed(CalcOnly(), add) == Success(true)
    ensures IsToolAllowed(CalcOnly(), minus) == Success(false)
    ensures IsToolAllowed(CalcOnly(), other) == Success(false)
  {
    CalcPolicy();
    PolicyVerdict(CalcOnly(), add, "calc", "add");
    PolicyVerdict(CalcOnly(), minus, "calc", "minus");
    PolicyVerdict(CalcOnly(), other, "other", "add");
  }

  lemma PolicyVerdict(w: Whitelist, name: string, ns: string, short: string)
    requires !NoWhitelist(w) && '_' !in ns && name == ns + "_" + short && Readable(w.value, ns)
    ensures IsToolAllowed(w, name) == Success(Permits(w.value, ns, short))
  {
    IsToolAllowedFollowsPolicy(w, ns, short);
  }

  /** The whitelist { calc: enabled, tools: null }: the `tools` key is present
      with no value. */
  function CalcNullTools(): Whitelist
  {
    Some(WhitelistDoc(Given(map["calc" := Some(ServerPolicy(Given(true), Missing, Null))]), false))
  }

  /** A null `tools` list is not an empty one: checking calc_add raises, and so
      does preparing any catalog that lists it. */
  lemma NullToolsRaises(add: string, t: CatalogTool)
    requires add == "calc" + "_" + "add" && t.name == add
    ensures IsToolAllowed(CalcNullTools(), add) == Failure(NotContainerError)
    ensures PrepareTools(CalcNullTools(), [t]) == Failure(NotContainerError)
  {
    var servers := Servers(CalcNullTools().value);
    assert "calc" in servers && servers["calc"].value.tools == Null;
    IsToolAllowedFollowsPolicy(CalcNullTools(), "calc", "add");
  }

  /** Three fragments of call 0 merge into one call: the first gives the id
      and the name, the other two the argument text in pieces. */
  lemma MergeExample(d0: ToolCall, d1: ToolCall, d2: ToolCall)
    requires d0 == ToolCall(0, Some("t1"), Some(FunctionCall(Some("add"), None)))
    requires d1 == ToolCall(0, None, Some(FunctionCall(None, Some("{\"x\":"))))
    requires d2 == ToolCall(0, None, Some(FunctionCall(None, Some("1}"))))
    ensures MergeInto([], [d0, d1, d2]) == Success([ToolCall(0, Some("t1"), Some(FunctionCall(Some("add"), Some("{\"x\":1}"))))])
  {
    assert [d0, d1, d2][..2] == [d0, d1] && [d0, d1][..1] == [d0] && [d0][..0] == [];
    assert MergeInto([], []) == Success([]);
    assert [] + [d0] == [d0];
    assert MergeFragment([], d0) == Success([d0]);
    assert MergeInto([], [d0]) == Success([d0]);
    var c1 := ToolCall(0, Some("t1"), Some(FunctionCall(Some("add"), Some("{\"x\":"))));
    assert OrElse(d0.fn.value.arguments, "") + d1.fn.value.arguments.value == "{\"x\":";
    assert Update(d0, d1) == Success(c1);
    assert Find([d0], 0) == Some(0) && [d0][0 := c1] == [c1];
    assert MergeFragment([d0], d1) == Success([c1]);
    assert MergeInto([], [d0, d1]) == Success([c1]);
    var c2 := ToolCall(0, Some("t1"), Some(FunctionCall(Some("add"), Some("{\"x\":" + "1}"))));
    assert Update(c1, d2) == Success(c2);
    assert Find([c1], 0) == Some(0) && [c1][0 := c2] == [c2];
    assert MergeFragment([c1], d2) == Success([c2]);
    assert "{\"x\":" + "1}" == "{\"x\":1}";
  }

  /** Keeping one round of [user A, assistant B, user C, assistant D] keeps the last two. */
  lemma KeepOneRound(ms: seq<Message>)
    requires ms == [UserMessage("A"), AnswerMessage(Some("B")), UserMessage("C"), AnswerMessage(Some("D"))]
    ensures KeepCount(ms, 1) == 2
  {
    assert ms[..3][..2] == ms[..2];
    assert KeepCount(ms[..2], 0) == 0;
    assert ms[2].role == User;
    assert KeepCount(ms[..3], 1) == 1 + KeepCount(ms[..2], 0);
  }

  /** add(2, 3) through the gateway: the tool message carries "5". */
  lemma CalculatorAnswers(parse: Parser<Args>, text: string)
    requires parse(text) == Success(map["x" := JInt(2), "y" := JInt(3)])
    ensures Dispatch(ToolCall(0, Some("t1"), Some(FunctionCall(Some("add"), Some(text)))), parse, CalculatorTool).content
            == Some("5")
  {
    var args := map["x" := JInt(2), "y" := JInt(3)];
    assert Lookup(args, "x") == Some(JInt(2)) && Lookup(args, "y") == Some(JInt(3));
    assert Add(Some(JInt(2)), Some(JInt(3))) == Success(5);
    assert ShowInt(5) == "5";
    assert CalculatorTool(Some("add"), args) == Success([TextContent("5")]);
  }

  /** add(0, 3) through the gateway: validation rejects x, and the tool
      message names the tool and the validation error. */
  lemma CalculatorRejects(parse: Parser<Args>, text: string)
    requires parse(text) == Success(map["x" := JInt(0), "y" := JInt(3)])
    ensures var m := Dispatch(ToolCall(1, Some("t2"), Some(FunctionCall(Some("add"), Some(text)))), parse, CalculatorTool);
            Contains(m.content.value, "add") && Contains(m.content.value, "x" + TooSmall)
  {
    var args := map["x" := JInt(0), "y" := JInt(3)];
    assert Lookup(args, "x") == Some(JInt(0));
    assert Add(Some(JInt(0)), Lookup(args, "y")) == Failure("x" + TooSmall);
    assert CalculatorTool(Some("add"), args) == Failure("x" + TooSmall);
    assert Show(Some("add")) == "add";
  }
}
