/** The tool gateway of both handlers: the whitelist check on a qualified tool
    name, the filtering of the discovered catalog into the function-calling
    format, and the dispatch of the model's tool calls, which turns every
    failure inside the call into an error text in the tool-result message. */
module ToolGateway {
  import opened Base
  import opened Messages

  /** A flag read with `.get(key, False)`: absent and null both read as false. */
  function Flag(f: Field<bool>): (b: bool)
    ensures b <==> f == Given(true)
  {
    f.Given? && f.value
  }

  /** One namespace of the whitelist: its `enabled`, `allow_all` and `tools` keys. */
  datatype ServerPolicy = ServerPolicy(enabled: Field<bool>, allowAll: Field<bool>, tools: Field<seq<string>>)

  /** A loaded whitelist file: its `mcp_servers` key, whose entries may be null,
      and whether the file has any other top-level key. */
  datatype WhitelistDoc = WhitelistDoc(mcpServers: Field<map<string, Option<ServerPolicy>>>, otherKeys: bool)

  /** None when no whitelist path was configured or the file does not exist. */
  type Whitelist = Option<WhitelistDoc>

  /** `not self.tools_whitelist`: no file, or an empty mapping. A file whose
      only key is a null `mcp_servers` is a non-empty mapping. */
  predicate NoWhitelist(w: Whitelist)
  {
    w.None? || (w.value.mcpServers.Missing? && !w.value.otherKeys)
  }

  /** `.get('mcp_servers', {})` when that is a mapping. */
  function Servers(doc: WhitelistDoc): map<string, Option<ServerPolicy>>
  {
    if doc.mcpServers.Given? then doc.mcpServers.value else map[]
  }

  /** The check can read namespace `ns` of the whitelist without an exception:
      `mcp_servers` is not null, a listed entry for `ns` is not null, and an
      enabled entry that does not allow all has a non-null `tools` list. */
  predicate Readable(doc: WhitelistDoc, ns: string)
  {
    && !doc.mcpServers.Null?
    && (ns in Servers(doc) ==>
          && Servers(doc)[ns].Some?
          && (Flag(Servers(doc)[ns].value.enabled) && !Flag(Servers(doc)[ns].value.allowAll) ==>
                !Servers(doc)[ns].value.tools.Null?))
  }

  /** The whitelist policy: namespace `ns` is listed and enabled, and either
      allows all of its tools or lists `short`. */
  predicate Permits(doc: WhitelistDoc, ns: string, short: string)
  {
    && ns in Servers(doc)
    && Servers(doc)[ns].Some?
    && Flag(Servers(doc)[ns].value.enabled)
    && (|| Flag(Servers(doc)[ns].value.allowAll)
        || (Servers(doc)[ns].value.tools.Given? && short in Servers(doc)[ns].value.tools.value))
  }

  /** The position of the first `c` in `s`. */
  function IndexOf(s: string, c: char): (r: Option<nat>)
    ensures r.None? <==> c !in s
    ensures r.Some? ==> r.value < |s| && s[r.value] == c && c !in s[..r.value]
  {
    if s == [] then None
    else if s[0] == c then Some(0)
    else
      match IndexOf(s[1..], c)
      case None => None
      case Some(i) =>
        assert s[..i + 1] == [s[0]] + s[1..][..i];
        Some(i + 1)
  }

  /** name.split('_', maxsplit=1) when the result has two parts: the namespace
      before the first underscore and the short name after it. */
  function SplitFirst(name: string): (r: Option<(string, string)>)
    ensures r.None? <==> '_' !in name
    ensures r.Some? ==> r.value.0 + "_" + r.value.1 == name && '_' !in r.value.0
  {
    match IndexOf(name, '_')
    case None => None
    case Some(i) =>
      assert name == name[..i] + "_" + name[i + 1..];
      Some((name[..i], name[i + 1..]))
  }

  /** The two parts are determined by the name: the namespace holds no underscore. */
  lemma SplitUnique(a: string, b: string, c: string, d: string)
    requires '_' !in a && '_' !in c
    requires a + "_" + b == c + "_" + d
    ensures a == c && b == d
  {
    var s := a + "_" + b;
    assert s[|a|] == '_' && s[|c|] == '_';
    assert |a| == |c|;
    assert a == s[..|a|];
    assert c == s[..|c|];
    assert b == s[|a| + 1..];
    assert d == s[|c| + 1..];
  }

  /** The exception Python raises when a name without '_' is unpacked into two parts. */
  const UnpackError: string := "not enough values to unpack (expected 2, got 1)"
  /** The exception of `x in None`, for a null `mcp_servers` or a null `tools`. */
  const NotContainerError: string := "argument of type 'NoneType' is not iterable"
  /** The exception of `.get` on a null namespace entry. */
  const NoGetError: string := "'NoneType' object has no attribute 'get'"

  /** The check runs to a verdict: there is no whitelist, or the name splits
      and its namespace can be read. */
  predicate Checkable(w: Whitelist, name: string)
  {
    NoWhitelist(w) || (SplitFirst(name).Some? && Readable(w.value, SplitFirst(name).value.0))
  }

  /** _is_tool_allowed (the same in both handlers). */
  function IsToolAllowed(w: Whitelist, name: string): (r: Result<bool>)
    ensures NoWhitelist(w) ==> r == Success(true)
    ensures !NoWhitelist(w) && '_' !in name ==> r == Failure(UnpackError)
    ensures r.Success? <==> Checkable(w, name)
    ensures r.Failure? ==> r.error in {UnpackError, NotContainerError, NoGetError}
  {
    if NoWhitelist(w) then Success(true)
    else
      match SplitFirst(name)
      case None => Failure(UnpackError)
      case Some((ns, short)) =>
        if w.value.mcpServers.Null? then Failure(NotContainerError)
        else
          var servers := Servers(w.value);
          if ns !in servers then Success(false)
          else
            match servers[ns]
            case None => Failure(NoGetError)
            case Some(p) =>
              if !Flag(p.enabled) then Success(false)
              else if Flag(p.allowAll) then Success(true)
              else
                match p.tools
                case Null => Failure(NotContainerError)
                case Missing => Success(false)
                case Given(allowed) => Success(short in allowed)
  }

  /** With a whitelist, `ns_short` (ns free of underscores) gets a verdict
      exactly when namespace `ns` can be read, and the verdict is the policy's;
      the split is on the first underscore, so the short name may itself
      contain underscores. Which null raises which exception: */
  lemma IsToolAllowedFollowsPolicy(w: Whitelist, ns: string, short: string)
    requires !NoWhitelist(w) && '_' !in ns
    ensures IsToolAllowed(w, ns + "_" + short).Success? <==> Readable(w.value, ns)
    ensures Readable(w.value, ns) ==> IsToolAllowed(w, ns + "_" + short) == Success(Permits(w.value, ns, short))
    ensures w.value.mcpServers.Null? ==> IsToolAllowed(w, ns + "_" + short) == Failure(NotContainerError)
    ensures ns in Servers(w.value) && Servers(w.value)[ns].None? && !w.value.mcpServers.Null? ==>
              IsToolAllowed(w, ns + "_" + short) == Failure(NoGetError)
    ensures ns in Servers(w.value) && Servers(w.value)[ns].Some? && Servers(w.value)[ns].value.tools.Null? &&
            Flag(Servers(w.value)[ns].value.enabled) && !Flag(Servers(w.value)[ns].value.allowAll) ==>
              IsToolAllowed(w, ns + "_" + short) == Failure(NotContainerError)
  {
    var name := ns + "_" + short;
    assert name[|ns|] == '_';
    var parts := SplitFirst(name);
    SplitUnique(parts.value.0, parts.value.1, ns, short);
  }

  /** A tool as the catalog lists it. */
  datatype CatalogTool = CatalogTool(name: string, description: Option<string>, inputSchema: string)

  /** The function-calling description of a catalog tool. */
  function Describe(t: CatalogTool): ToolSpec
  {
    ToolSpec("function", t.name, t.description, t.inputSchema)
  }

  predicate Allowed(w: Whitelist, t: CatalogTool)
  {
    IsToolAllowed(w, t.name) == Success(true)
  }

  /** prepare_tools over a listed catalog: keep the allowed tools, describe
      each. An exception from the whitelist check makes the whole call raise. */
  function PrepareTools(w: Whitelist, catalog: seq<CatalogTool>): (r: Result<seq<ToolSpec>>)
    ensures r.Failure? ==> r.error in {UnpackError, NotContainerError, NoGetError}
    ensures r.Success? ==> |r.value| <= |catalog|
  {
    if catalog == [] then Success([])
    else
      match IsToolAllowed(w, catalog[0].name)
      case Failure(e) => Failure(e)
      case Success(ok) =>
        match PrepareTools(w, catalog[1..])
        case Failure(e) => Failure(e)
        case Success(rest) => Success(Offered(w, catalog[0]) + rest)
  }

  /** The description of one catalog tool when the whitelist allows it, else nothing. */
  function Offered(w: Whitelist, t: CatalogTool): (r: seq<ToolSpec>)
    requires IsToolAllowed(w, t.name).Success?
    ensures |r| <= 1
  {
    if IsToolAllowed(w, t.name).value then [Describe(t)] else []
  }

  /** Preparing a catalog with a first tool: that tool's offer, then the rest. */
  lemma PrepareToolsCons(w: Whitelist, x: CatalogTool, rest: seq<CatalogTool>)
    ensures PrepareTools(w, [x] + rest).Success? <==> IsToolAllowed(w, x.name).Success? && PrepareTools(w, rest).Success?
    ensures PrepareTools(w, [x] + rest).Success? ==>
              PrepareTools(w, [x] + rest).value == Offered(w, x) + PrepareTools(w, rest).value
  {
    assert ([x] + rest)[0] == x && ([x] + rest)[1..] == rest;
  }

  /** Preparing the tools raises exactly when the whitelist check raises on
      some catalog name; without a whitelist every tool is offered. */
  lemma {:induction false} PrepareToolsSucceeds(w: Whitelist, catalog: seq<CatalogTool>)
    ensures PrepareTools(w, catalog).Success? <==> forall i :: 0 <= i < |catalog| ==> Checkable(w, catalog[i].name)
    ensures NoWhitelist(w) ==> PrepareTools(w, catalog).Success? && |PrepareTools(w, catalog).value| == |catalog|
  {
    if catalog != [] {
      PrepareToolsSucceeds(w, catalog[1..]);
      assert forall i :: 1 <= i < |catalog| ==> catalog[1..][i - 1] == catalog[i];
    }
  }

  /** A failed preparation carries the exception of the first catalog name the
      whitelist check raises on. */
  lemma {:induction false} PrepareToolsFailsAtFirst(w: Whitelist, catalog: seq<CatalogTool>)
    requires PrepareTools(w, catalog).Failure?
    ensures exists i :: 0 <= i < |catalog| && FirstRaise(w, catalog, i, PrepareTools(w, catalog).error)
  {
    if IsToolAllowed(w, catalog[0].name).Failure? {
      assert FirstRaise(w, catalog, 0, PrepareTools(w, catalog).error);
    } else {
      PrepareToolsFailsAtFirst(w, catalog[1..]);
      var i :| 0 <= i < |catalog[1..]| && FirstRaise(w, catalog[1..], i, PrepareTools(w, catalog[1..]).error);
      FirstRaiseCons(w, catalog, i, PrepareTools(w, catalog).error);
    }
  }

  /** The check raises `e` on catalog name `i`, and on no earlier one. */
  predicate FirstRaise(w: Whitelist, catalog: seq<CatalogTool>, i: nat, e: string)
    requires i < |catalog|
  {
    && IsToolAllowed(w, catalog[i].name) == Failure(e)
    && forall t :: t in catalog[..i] ==> IsToolAllowed(w, t.name).Success?
  }

  lemma FirstRaiseCons(w: Whitelist, catalog: seq<CatalogTool>, i: nat, e: string)
    requires catalog != [] && i < |catalog| - 1
    requires IsToolAllowed(w, catalog[0].name).Success? && FirstRaise(w, catalog[1..], i, e)
    ensures FirstRaise(w, catalog, i + 1, e)
  {
    assert catalog[..i + 1] == [catalog[0]] + catalog[1..][..i];
    assert catalog[i + 1] == catalog[1..][i];
  }

  /** The prepared tools are exactly the descriptions of the allowed catalog
      tools: nothing the whitelist rejects is offered, nothing it allows is lost. */
  lemma {:induction false} PrepareToolsSelectsAllowed(w: Whitelist, catalog: seq<CatalogTool>)
    requires PrepareTools(w, catalog).Success?
    ensures forall s :: s in PrepareTools(w, catalog).value ==> exists t :: t in catalog && Allowed(w, t) && s == Describe(t)
    ensures forall t :: t in catalog && Allowed(w, t) ==> Describe(t) in PrepareTools(w, catalog).value
  {
    if catalog != [] {
      PrepareToolsSelectsAllowed(w, catalog[1..]);
      assert forall t :: t in catalog ==> t == catalog[0] || t in catalog[1..];
      assert forall t :: t in catalog[1..] ==> t in catalog;
    }
  }

  /** Filtering keeps catalog order: preparing a catalog in two pieces gives the
      two prepared pieces one after the other. */
  lemma {:induction false} PrepareToolsKeepsOrder(w: Whitelist, a: seq<CatalogTool>, b: seq<CatalogTool>)
    requires PrepareTools(w, a + b).Success?
    ensures PrepareTools(w, a).Success? && PrepareTools(w, b).Success?
    ensures PrepareTools(w, a + b).value == PrepareTools(w, a).value + PrepareTools(w, b).value
  {
    if a == [] {
      assert a + b == b;
    } else {
      var x, rest := a[0], a[1..];
      assert a + b == [x] + (rest + b);
      assert a == [x] + rest;
      PrepareToolsCons(w, x, rest + b);
      PrepareToolsKeepsOrder(w, rest, b);
      PrepareToolsCons(w, x, rest);
    }
  }

  /** One item of a tool result's content; only text items carry `.text`. */
  datatype Content = TextContent(text: string) | OtherContent(typeName: string)

  /** json.loads on the arguments text: the parsed arguments, or the parse error. */
  type Parser<A> = string -> Result<A>

  /** call_tool: runs the named tool (the name may be null) or raises. */
  type Executor<!A> = (Option<string>, A) -> Result<seq<Content>>

  const NullArgumentsError: string := "the JSON object must be str, bytes or bytearray, not NoneType"
  const EmptyContentError: string := "list index out of range"
  const NoFunctionError: string := "'NoneType' object has no attribute 'name'"
  const FailurePrefix: string := "工具调用失败: "
  const FailureInfix: string := ", 错误: "

  /** The body of the try block for one call: parse, execute, take content[0].text. */
  function Invoke<A>(f: FunctionCall, parse: Parser<A>, exec: Executor<A>): Result<string>
  {
    match f.arguments
    case None => Failure(NullArgumentsError)
    case Some(text) =>
      match parse(text)
      case Failure(e) => Failure(e)
      case Success(args) =>
        match exec(f.name, args)
        case Failure(e) => Failure(e)
        case Success(items) =>
          if items == [] then Failure(EmptyContentError)
          else
            match items[0]
            case TextContent(t) => Success(t)
            case OtherContent(typeName) => Failure("'" + typeName + "' object has no attribute 'text'")
  }

  lemma NamesBoth(p: string, n: string, i: string, e: string)
    ensures Contains(p + n + (i + e), n) && Contains(p + n + (i + e), e)
  {
    ContainsJoined(p, n, i + e);
    ContainsSuffix(p + n + i, e);
    assert p + n + i + e == p + n + (i + e);
  }

  /** The error text stored for a failed call: it names the tool and the error. */
  function FailureText(name: Option<string>, error: string): (t: string)
    ensures Contains(t, Show(name)) && Contains(t, error)
  {
    NamesBoth(FailurePrefix, Show(name), FailureInfix, error);
    FailurePrefix + Show(name) + (FailureInfix + error)
  }

  /** The tool message for one call: the result text on success, otherwise the
      error text; either way it answers the call's id. */
  function Dispatch<A>(call: ToolCall, parse: Parser<A>, exec: Executor<A>): (m: Message)
    requires call.fn.Some?
    ensures m.role == Tool && m.toolCallId == call.id && m.toolCalls.Missing? && m.content.Some?
    ensures Invoke(call.fn.value, parse, exec).Success? ==> m.content.value == Invoke(call.fn.value, parse, exec).value
    ensures Invoke(call.fn.value, parse, exec).Failure? ==>
              && Contains(m.content.value, Show(call.fn.value.name))
              && Contains(m.content.value, Invoke(call.fn.value, parse, exec).error)
  {
    match Invoke(call.fn.value, parse, exec)
    case Success(text) => ToolResult(text, call.id)
    case Failure(e) => ToolResult(FailureText(call.fn.value.name, e), call.id)
  }

  /** The tool messages appended, and the exception that escaped, if any. */
  datatype ToolBatch = ToolBatch(results: seq<Message>, error: Option<string>)

  /** _process_tool_calls. Everything inside the try block becomes tool-result
      content; only a call without a function object raises, from the log line
      before the try, after the earlier calls' results were appended. */
  function ProcessToolCalls<A>(calls: seq<ToolCall>, parse: Parser<A>, exec: Executor<A>): ToolBatch
  {
    if calls == [] then ToolBatch([], None)
    else if calls[0].fn.None? then ToolBatch([], Some(NoFunctionError))
    else
      var rest := ProcessToolCalls(calls[1..], parse, exec);
      ToolBatch([Dispatch(calls[0], parse, exec)] + rest.results, rest.error)
  }

  /** One tool message per call, in order, each the call's dispatch; the batch
      raises exactly when some call has no function object, and then stops at
      the first such call. */
  lemma {:induction false} ProcessToolCallsSpec<A>(calls: seq<ToolCall>, parse: Parser<A>, exec: Executor<A>)
    ensures var r := ProcessToolCalls(calls, parse, exec);
            && |r.results| <= |calls|
            && (r.error.None? <==> forall i :: 0 <= i < |calls| ==> calls[i].fn.Some?)
            && (r.error.None? ==> |r.results| == |calls|)
            && (r.error.Some? ==> r.error.value == NoFunctionError && |r.results| < |calls| && calls[|r.results|].fn.None?)
            && (forall i :: 0 <= i < |r.results| ==> calls[i].fn.Some? && r.results[i] == Dispatch(calls[i], parse, exec))
  {
    if calls != [] && calls[0].fn.Some? {
      ProcessToolCallsSpec(calls[1..], parse, exec);
      var r := ProcessToolCalls(calls, parse, exec);
      var rest := ProcessToolCalls(calls[1..], parse, exec);
      assert r.results == [Dispatch(calls[0], parse, exec)] + rest.results;
      assert forall i :: 1 <= i < |calls| ==> calls[1..][i - 1] == calls[i];
      assert forall i :: 1 <= i < |r.results| ==> r.results[i] == rest.results[i - 1];
    }
  }
}
