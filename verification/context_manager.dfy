/** The context compactor (ChatContextManager): once the last prompt-token
    reading passes a fraction of the model's context window, the older rounds of
    the conversation are replaced by one system message holding a summary, and
    when summaries have piled up they are merged into one. The summarizer is the
    chat model, passed in as a function; each result also records the requests
    that were sent to it. */
module ContextManager {
  import opened Base
  import opened Messages

  /** The manager's settings. The float `summarize_threshold` is the ratio
      thresholdNum / thresholdDen. */
  datatype Config = Config(
    maxContextTokens: int,
    thresholdNum: int,
    thresholdDen: int,
    keepChatRounds: int,
    systemPromptMaxnum: int)

  /** The constructor defaults: 64000 tokens, threshold 0.5, 5 rounds kept, 10 system prompts. */
  const Defaults: Config := Config(64000, 1, 2, 5, 10)

  const SummaryPrefix: string := "新增的对话摘要：\n"

  const SummarizeInstruction: string :=
    "请你总结上述对话内容，你应该使用简洁准确的语言尽可能概括出所有重要的用户提问与助手回答，对每轮对话都严格按照如下格式进行整理：\n\n"
    + "用户提到：...；助手回答：...。\n"

  const MergeInstruction: string :=
    "请你总结上述所有系统摘要中用户对话内容，使用简洁准确的语言提取出最重要的部分，合并重复的部分，丢弃不重要的部分，并严格按照如下格式进行整理：\n\n"
    + "用户提到：...；助手回答：...。\n"

  /** A call of the chat model that returns the reply's content (possibly null) or raises. */
  type Summarizer = ChatRequest -> Result<Option<string>>

  /** The history after management, and the summarizer requests that produced it. */
  datatype Compaction = Compaction(history: seq<Message>, requests: seq<ChatRequest>)

  /** current_tokens > max_context_tokens * summarize_threshold, without floats. */
  predicate Triggered(cfg: Config, tokens: int)
    requires cfg.thresholdDen > 0
  {
    tokens * cfg.thresholdDen > cfg.maxContextTokens * cfg.thresholdNum
  }

  /** The system message that carries a summary; a null summary renders as "None". */
  function SummaryMessage(summary: Option<string>): Message
  {
    SystemMessage(SummaryPrefix + Show(summary))
  }

  /** How many trailing messages make up the last `rounds` user-initiated
      rounds: walk backwards, counting user messages, until `rounds` of them
      have been passed or the list is exhausted. */
  function KeepCount(ms: seq<Message>, rounds: int): (k: nat)
    ensures k <= |ms|
    ensures rounds <= 0 ==> k == 0
    decreases |ms|
  {
    if rounds <= 0 || ms == [] then 0
    else
      var last := ms[|ms| - 1];
      1 + KeepCount(ms[..|ms| - 1], if last.role == User then rounds - 1 else rounds)
  }

  /** The kept suffix of `ms` is exactly its last `rounds` rounds: it opens
      with a user message and holds `rounds` user messages, unless the whole
      list is kept, which has at most `rounds` of them and, when it has
      exactly `rounds`, opens with one. */
  predicate KeptRounds(ms: seq<Message>, rounds: int)
  {
    var k := KeepCount(ms, rounds);
    && (k < |ms| ==> 0 < k && ms[|ms| - k].role == User && CountRole(ms[|ms| - k..], User) == rounds)
    && (k == |ms| ==> CountRole(ms, User) <= rounds)
    && (k == |ms| && ms != [] ==> CountRole(ms, User) < rounds || ms[0].role == User)
  }

  /** One more message at the end: the walk counts it and goes on with the rest. */
  lemma KeepCountRoundsStep(p: seq<Message>, x: Message, rounds: int)
    requires rounds > 0
    requires var r' := if x.role == User then rounds - 1 else rounds;
             r' > 0 ==> KeptRounds(p, r')
    ensures KeptRounds(p + [x], rounds)
  {
    var ms := p + [x];
    assert ms[..|ms| - 1] == p && ms[|ms| - 1] == x;
    var r' := if x.role == User then rounds - 1 else rounds;
    var k := KeepCount(ms, rounds);
    var k' := KeepCount(p, r');
    assert k == 1 + k';
    CountRoleAppend(p, [x], User);
    assert [x][1..] == [];
    assert CountRole([x], User) == (if x.role == User then 1 else 0);
    if r' == 0 {
      assert ms[|ms| - k..] == [x];
    } else if k' < |p| {
      assert ms[|ms| - k..] == p[|p| - k'..] + [x];
      CountRoleAppend(p[|p| - k'..], [x], User);
      assert ms[|ms| - k] == p[|p| - k'];
    } else if p != [] {
      assert ms[0] == p[0];
    }
  }

  /** The kept suffix is exactly the last `rounds` rounds: it opens with a user
      message and holds `rounds` user messages, unless the whole list is kept,
      which has at most `rounds` of them and, with exactly `rounds`, opens
      with one. */
  lemma {:induction false} KeepCountRounds(ms: seq<Message>, rounds: int)
    requires rounds > 0
    ensures KeepCount(ms, rounds) < |ms| ==>
              && 0 < KeepCount(ms, rounds)
              && ms[|ms| - KeepCount(ms, rounds)].role == User
              && CountRole(ms[|ms| - KeepCount(ms, rounds)..], User) == rounds
    ensures KeepCount(ms, rounds) == |ms| ==> CountRole(ms, User) <= rounds
    ensures KeepCount(ms, rounds) == |ms| && ms != [] ==> CountRole(ms, User) < rounds || ms[0].role == User
    decreases |ms|
  {
    if ms != [] {
      var p := ms[..|ms| - 1];
      var x := ms[|ms| - 1];
      assert ms == p + [x];
      if x.role != User || rounds > 1 {
        KeepCountRounds(p, if x.role == User then rounds - 1 else rounds);
      }
      KeepCountRoundsStep(p, x, rounds);
    }
  }

  /** When the whole list is kept: exactly when it has fewer than `rounds`
      user messages, or exactly `rounds` and opens with one. A list with more
      user messages, or with `rounds` of them after a leading non-user message,
      loses its head. */
  lemma KeepCountWhole(ms: seq<Message>, rounds: int)
    requires rounds > 0 && ms != []
    ensures KeepCount(ms, rounds) == |ms| <==>
              CountRole(ms, User) < rounds || (CountRole(ms, User) == rounds && ms[0].role == User)
  {
    KeepCountRounds(ms, rounds);
    var k := KeepCount(ms, rounds);
    if k < |ms| {
      var j := |ms| - k;
      assert ms == ms[..j] + ms[j..];
      CountRoleAppend(ms[..j], ms[j..], User);
      assert ms[..j][0] == ms[0];
    }
  }

  /** _get_keep_chat_messages, as the loop the source runs. */
  method GetKeepChatMessages(messages: seq<Message>, rounds: int) returns (saveLen: nat)
    ensures saveLen == KeepCount(messages, rounds)
    ensures saveLen <= |messages|
    ensures rounds <= 0 ==> saveLen == 0
    ensures rounds > 0 && saveLen < |messages| ==>
              && messages[|messages| - saveLen].role == User
              && CountRole(messages[|messages| - saveLen..], User) == rounds
    ensures rounds > 0 && saveLen == |messages| ==> CountRole(messages, User) <= rounds
    ensures rounds > 0 && messages != [] ==>
              (saveLen == |messages| <==>
                 CountRole(messages, User) < rounds || (CountRole(messages, User) == rounds && messages[0].role == User))
  {
    saveLen := 0;
    var remaining := rounds;
    var n := |messages|;
    assert messages[..n] == messages;
    while remaining > 0 && saveLen < n
      invariant saveLen <= n
      invariant KeepCount(messages, rounds) == saveLen + KeepCount(messages[..n - saveLen], remaining)
      decreases n - saveLen
    {
      var prefix := messages[..n - saveLen];
      assert prefix[..|prefix| - 1] == messages[..n - saveLen - 1];
      if messages[n - saveLen - 1].role == User {
        remaining := remaining - 1;
      }
      saveLen := saveLen + 1;
    }
    if rounds > 0 {
      KeepCountRounds(messages, rounds);
      if messages != [] {
        KeepCountWhole(messages, rounds);
      }
    }
  }

  /** Lines 44-46: recent = ns[-k:] and old = ns[:-k] when len(ns) > k, else
      recent = ns and old = []. Python reads ns[-0:] as the whole list and
      ns[:-0] as the empty one, so k = 0 keeps everything. */
  function SplitRecent(ns: seq<Message>, k: nat): (parts: (seq<Message>, seq<Message>))
    ensures parts.0 + parts.1 == ns
    ensures 0 < k <= |ns| ==> |parts.1| == k
    ensures k == 0 || k >= |ns| ==> parts.0 == []
  {
    if |ns| > k && k > 0 then (ns[..|ns| - k], ns[|ns| - k..]) else ([], ns)
  }

  /** The non-system messages compaction would summarize. */
  function OldPart(cfg: Config, history: seq<Message>): seq<Message>
  {
    var ns := NonSystems(history);
    SplitRecent(ns, KeepCount(ns, cfg.keepChatRounds)).0
  }

  /** The non-system messages compaction keeps verbatim. */
  function RecentPart(cfg: Config, history: seq<Message>): seq<Message>
  {
    var ns := NonSystems(history);
    SplitRecent(ns, KeepCount(ns, cfg.keepChatRounds)).1
  }

  /** The first summarizer request: the old messages plus the instruction, no tools. */
  function FirstRequest(cfg: Config, history: seq<Message>): ChatRequest
  {
    ChatRequest(OldPart(cfg, history) + [UserMessage(SummarizeInstruction)], [])
  }

  /** manage_context, with _summarize_messages and _summarize_system_prompts
      inlined as calls of `chat`. */
  function ManageContext(cfg: Config, history: seq<Message>, tokens: int, chat: Summarizer): (r: Result<Compaction>)
    requires cfg.thresholdDen > 0
    ensures r.Success? && r.value.requests == [] ==> r.value.history == history
  {
    if !Triggered(cfg, tokens) then Success(Compaction(history, []))
    else
      var systems := Systems(history);
      var nonSystems := NonSystems(history);
      var keep := KeepCount(nonSystems, cfg.keepChatRounds);
      var (older, recent) := SplitRecent(nonSystems, keep);
      if older == [] then Success(Compaction(history, []))
      else
        var first := ChatRequest(older + [UserMessage(SummarizeInstruction)], []);
        match chat(first)
        case Failure(e) => Failure(e)
        case Success(summary) =>
          var newHistory := systems + [SummaryMessage(summary)] + recent;
          var n := |systems|;
          if n < cfg.systemPromptMaxnum then
            Success(Compaction(newHistory, [first]))
          else
            var second := ChatRequest(newHistory[1..n + 1] + [UserMessage(MergeInstruction)], []);
            match chat(second)
            case Failure(e) => Failure(e)
            case Success(merged) =>
              Success(Compaction([newHistory[0], SummaryMessage(merged)] + recent, [first, second]))
  }

  /** Below the threshold, or with nothing old enough to summarize, the
      history is left as it is and the summarizer is not asked. */
  lemma CompactionSkipped(cfg: Config, history: seq<Message>, tokens: int, chat: Summarizer)
    requires cfg.thresholdDen > 0
    ensures !Triggered(cfg, tokens) ==> ManageContext(cfg, history, tokens, chat) == Success(Compaction(history, []))
    ensures OldPart(cfg, history) == [] ==> ManageContext(cfg, history, tokens, chat) == Success(Compaction(history, []))
  {
  }

  /** Compaction raises only when it asked the summarizer, and an exception
      from the first summarizer call propagates. */
  lemma CompactionFailure(cfg: Config, history: seq<Message>, tokens: int, chat: Summarizer)
    requires cfg.thresholdDen > 0
    ensures ManageContext(cfg, history, tokens, chat).Failure? ==> Triggered(cfg, tokens) && OldPart(cfg, history) != []
    ensures Triggered(cfg, tokens) && OldPart(cfg, history) != [] && chat(FirstRequest(cfg, history)).Failure? ==>
              ManageContext(cfg, history, tokens, chat) == Failure(chat(FirstRequest(cfg, history)).error)
  {
  }

  /** A compaction that asked the summarizer sent it the old messages first,
      and the history it yields ends with the recent messages verbatim. */
  lemma CompactionKeepsRecent(cfg: Config, history: seq<Message>, tokens: int, chat: Summarizer)
    requires cfg.thresholdDen > 0
    ensures var r := ManageContext(cfg, history, tokens, chat);
            r.Success? && r.value.requests != [] ==>
              && Triggered(cfg, tokens)
              && r.value.requests[0] == FirstRequest(cfg, history)
              && OldPart(cfg, history) + RecentPart(cfg, history) == NonSystems(history)
              && |RecentPart(cfg, history)| <= |r.value.history|
              && r.value.history[|r.value.history| - |RecentPart(cfg, history)|..] == RecentPart(cfg, history)
  {
    var r := ManageContext(cfg, history, tokens, chat);
    if r.Success? && r.value.requests != [] {
      CompactionAsked(cfg, history, tokens, chat);
      var recent := RecentPart(cfg, history);
      var h := r.value.history;
      PartsOfHistory(cfg, history);
      var head: seq<Message>;
      if |Systems(history)| < cfg.systemPromptMaxnum {
        CompactionAppendsSummary(cfg, history, tokens, chat);
        head := Systems(history) + [SummaryMessage(chat(FirstRequest(cfg, history)).value)];
      } else {
        CompactionMergesSummaries(cfg, history, tokens, chat);
        var summary := chat(FirstRequest(cfg, history)).value;
        head := [(Systems(history) + [SummaryMessage(summary)])[0], SummaryMessage(chat(MergeRequest(cfg, history, summary)).value)];
      }
      assert h == head + recent;
      assert h[|h| - |recent|..] == recent;
    }
  }

  /** A compaction that asked the summarizer passed the threshold, had old
      messages to summarize, and every summarizer call it made succeeded. */
  lemma CompactionAsked(cfg: Config, history: seq<Message>, tokens: int, chat: Summarizer)
    requires cfg.thresholdDen > 0
    requires ManageContext(cfg, history, tokens, chat).Success?
    requires ManageContext(cfg, history, tokens, chat).value.requests != []
    ensures Triggered(cfg, tokens) && OldPart(cfg, history) != []
    ensures chat(FirstRequest(cfg, history)).Success?
    ensures ManageContext(cfg, history, tokens, chat).value.requests[0] == FirstRequest(cfg, history)
    ensures |Systems(history)| >= cfg.systemPromptMaxnum ==>
              chat(MergeRequest(cfg, history, chat(FirstRequest(cfg, history)).value)).Success?
  {
    if |Systems(history)| >= cfg.systemPromptMaxnum {
      var summary := chat(FirstRequest(cfg, history)).value;
      if chat(MergeRequest(cfg, history, summary)).Failure? {
        MergeFailurePropagates(cfg, history, tokens, chat);
      }
    }
  }

  /** Facts about the partition every compaction starts from. */
  lemma {:induction false} PartsOfHistory(cfg: Config, history: seq<Message>)
    ensures OldPart(cfg, history) + RecentPart(cfg, history) == NonSystems(history)
    ensures Systems(RecentPart(cfg, history)) == []
    ensures NonSystems(RecentPart(cfg, history)) == RecentPart(cfg, history)
  {
    var ns := NonSystems(history);
    var recent := RecentPart(cfg, history);
    var k := KeepCount(ns, cfg.keepChatRounds);
    if |ns| > k && k > 0 {
      assert recent == ns[|ns| - k..];
      forall i | 0 <= i < |recent| ensures recent[i].role != System {
        assert recent[i] == ns[|ns| - k + i];
      }
    } else {
      assert recent == ns;
    }
    NonSystemsIdentity(recent);
  }

  /** When fewer than `systemPromptMaxnum` system prompts exist, compaction
      yields the original system messages in order, exactly one new summary
      system message, and the recent messages verbatim; the summarizer is
      asked once. */
  lemma {:induction false} CompactionAppendsSummary(cfg: Config, history: seq<Message>, tokens: int, chat: Summarizer)
    requires cfg.thresholdDen > 0
    requires Triggered(cfg, tokens) && OldPart(cfg, history) != []
    requires chat(FirstRequest(cfg, history)).Success?
    requires |Systems(history)| < cfg.systemPromptMaxnum
    ensures var r := ManageContext(cfg, history, tokens, chat);
            var summary := SummaryMessage(chat(FirstRequest(cfg, history)).value);
            && r.Success?
            && r.value.requests == [FirstRequest(cfg, history)]
            && Systems(r.value.history) == Systems(history) + [summary]
            && NonSystems(r.value.history) == RecentPart(cfg, history)
            && r.value.history == Systems(history) + [summary] + RecentPart(cfg, history)
  {
    var summary := SummaryMessage(chat(FirstRequest(cfg, history)).value);
    var head := Systems(history) + [summary];
    var recent := RecentPart(cfg, history);
    var r := ManageContext(cfg, history, tokens, chat);
    assert r == Success(Compaction(head + recent, [FirstRequest(cfg, history)])) by {
      AppendResult(cfg, history, tokens, chat);
    }
    assert NonSystems(recent) == recent by {
      PartsOfHistory(cfg, history);
    }
    assert forall i :: 0 <= i < |head| ==> head[i].role == System;
    Compacted(r, head, recent, [FirstRequest(cfg, history)]);
  }

  /** A compaction into system messages followed by others. */
  lemma Compacted(r: Result<Compaction>, head: seq<Message>, recent: seq<Message>, requests: seq<ChatRequest>)
    requires r == Success(Compaction(head + recent, requests))
    requires forall i :: 0 <= i < |head| ==> head[i].role == System
    requires NonSystems(recent) == recent
    ensures r.Success? && r.value.requests == requests && r.value.history == head + recent
    ensures Systems(r.value.history) == head && NonSystems(r.value.history) == recent
  {
    SystemsThenOthers(head, recent);
  }

  /** The first pass's result, before looking at its system/non-system parts. */
  lemma AppendResult(cfg: Config, history: seq<Message>, tokens: int, chat: Summarizer)
    requires cfg.thresholdDen > 0
    requires Triggered(cfg, tokens) && OldPart(cfg, history) != []
    requires chat(FirstRequest(cfg, history)).Success?
    requires |Systems(history)| < cfg.systemPromptMaxnum
    ensures var summary := SummaryMessage(chat(FirstRequest(cfg, history)).value);
            ManageContext(cfg, history, tokens, chat)
            == Success(Compaction(Systems(history) + [summary] + RecentPart(cfg, history), [FirstRequest(cfg, history)]))
  {
  }

  /** The request the merge pass sends: every system-level message of the first
      pass after the first one, plus the merge instruction, with no tools. */
  function MergeRequest(cfg: Config, history: seq<Message>, summary: Option<string>): ChatRequest
  {
    var firstPass := Systems(history) + [SummaryMessage(summary)];
    ChatRequest(firstPass[1..] + [UserMessage(MergeInstruction)], [])
  }

  /** When the original system prompts number `systemPromptMaxnum` or more,
      the merge pass runs after the first summary; a failing merge call
      propagates. */
  lemma MergeFailurePropagates(cfg: Config, history: seq<Message>, tokens: int, chat: Summarizer)
    requires cfg.thresholdDen > 0
    requires Triggered(cfg, tokens) && OldPart(cfg, history) != []
    requires chat(FirstRequest(cfg, history)).Success?
    requires |Systems(history)| >= cfg.systemPromptMaxnum
    requires chat(MergeRequest(cfg, history, chat(FirstRequest(cfg, history)).value)).Failure?
    ensures ManageContext(cfg, history, tokens, chat)
            == Failure(chat(MergeRequest(cfg, history, chat(FirstRequest(cfg, history)).value)).error)
  {
    var summary := chat(FirstRequest(cfg, history)).value;
    var systems := Systems(history);
    var firstPass := systems + [SummaryMessage(summary)];
    var recent := RecentPart(cfg, history);
    assert (firstPass + recent)[1..|systems| + 1] == firstPass[1..];
  }

  /** The merge pass's result, before looking at its system/non-system parts. */
  lemma MergeResult(cfg: Config, history: seq<Message>, tokens: int, chat: Summarizer)
    requires cfg.thresholdDen > 0
    requires Triggered(cfg, tokens) && OldPart(cfg, history) != []
    requires chat(FirstRequest(cfg, history)).Success?
    requires |Systems(history)| >= cfg.systemPromptMaxnum
    requires chat(MergeRequest(cfg, history, chat(FirstRequest(cfg, history)).value)).Success?
    ensures var summary := chat(FirstRequest(cfg, history)).value;
            var second := MergeRequest(cfg, history, summary);
            var head := [(Systems(history) + [SummaryMessage(summary)])[0], SummaryMessage(chat(second).value)];
            ManageContext(cfg, history, tokens, chat)
            == Success(Compaction(head + RecentPart(cfg, history), [FirstRequest(cfg, history), second]))
  {
    var systems := Systems(history);
    var summary := chat(FirstRequest(cfg, history)).value;
    var firstPass := systems + [SummaryMessage(summary)];
    var recent := RecentPart(cfg, history);
    var newHistory := systems + [SummaryMessage(summary)] + recent;
    assert newHistory == firstPass + recent;
    assert newHistory[1..|systems| + 1] == firstPass[1..];
    assert newHistory[0] == firstPass[0];
    assert MergeRequest(cfg, history, summary) == ChatRequest(newHistory[1..|systems| + 1] + [UserMessage(MergeInstruction)], []);
  }

  /** When the original system prompts number `systemPromptMaxnum` or more,
      the second summarizer receives original system messages 2..n and the new
      summary, and the result is the first system-level message, one merged
      summary and the recent messages. */
  lemma {:induction false} CompactionMergesSummaries(cfg: Config, history: seq<Message>, tokens: int, chat: Summarizer)
    requires cfg.thresholdDen > 0
    requires Triggered(cfg, tokens) && OldPart(cfg, history) != []
    requires chat(FirstRequest(cfg, history)).Success?
    requires |Systems(history)| >= cfg.systemPromptMaxnum
    requires chat(MergeRequest(cfg, history, chat(FirstRequest(cfg, history)).value)).Success?
    ensures var summary := chat(FirstRequest(cfg, history)).value;
            var second := MergeRequest(cfg, history, summary);
            var head := [(Systems(history) + [SummaryMessage(summary)])[0], SummaryMessage(chat(second).value)];
            var r := ManageContext(cfg, history, tokens, chat);
            && r.Success?
            && r.value.requests == [FirstRequest(cfg, history), second]
            && Systems(r.value.history) == head
            && NonSystems(r.value.history) == RecentPart(cfg, history)
            && r.value.history == head + RecentPart(cfg, history)
  {
    var summary := chat(FirstRequest(cfg, history)).value;
    var second := MergeRequest(cfg, history, summary);
    var head := [(Systems(history) + [SummaryMessage(summary)])[0], SummaryMessage(chat(second).value)];
    var recent := RecentPart(cfg, history);
    var r := ManageContext(cfg, history, tokens, chat);
    assert r == Success(Compaction(head + recent, [FirstRequest(cfg, history), second])) by {
      MergeResult(cfg, history, tokens, chat);
    }
    assert NonSystems(recent) == recent by {
      PartsOfHistory(cfg, history);
    }
    Compacted(r, head, recent, [FirstRequest(cfg, history), second]);
  }

  /** Compaction bounds the system prompts: whatever the limit, a compacted
      history holds at most max(systemPromptMaxnum, 2) system messages, so they
      cannot pile up across many compactions. */
  lemma CompactionBoundsSystemPrompts(cfg: Config, history: seq<Message>, tokens: int, chat: Summarizer)
    requires cfg.thresholdDen > 0
    requires ManageContext(cfg, history, tokens, chat).Success?
    requires ManageContext(cfg, history, tokens, chat).value.requests != []
    ensures var h := ManageContext(cfg, history, tokens, chat).value.history;
            CountRole(h, System) <= if cfg.systemPromptMaxnum < 2 then 2 else cfg.systemPromptMaxnum
  {
    var h := ManageContext(cfg, history, tokens, chat).value.history;
    PartitionSizes(h);
    PartitionSizes(history);
    if |Systems(history)| < cfg.systemPromptMaxnum {
      CompactionAppendsSummary(cfg, history, tokens, chat);
    } else {
      var summary := chat(FirstRequest(cfg, history)).value;
      if chat(MergeRequest(cfg, history, summary)).Failure? {
        MergeFailurePropagates(cfg, history, tokens, chat);
      } else {
        CompactionMergesSummaries(cfg, history, tokens, chat);
      }
    }
  }

  /** Whenever compaction happens, the messages kept verbatim are exactly the
      last `keepChatRounds` rounds: they open with a user message and hold that
      many user messages. */
  lemma CompactionKeepsLastRounds(cfg: Config, history: seq<Message>, tokens: int, chat: Summarizer)
    requires cfg.thresholdDen > 0
    requires ManageContext(cfg, history, tokens, chat).Success?
    requires ManageContext(cfg, history, tokens, chat).value.requests != []
    ensures RecentPart(cfg, history) != []
    ensures RecentPart(cfg, history)[0].role == User
    ensures CountRole(RecentPart(cfg, history), User) == cfg.keepChatRounds
  {
    var ns := NonSystems(history);
    var k := KeepCount(ns, cfg.keepChatRounds);
    assert 0 < k < |ns|;
    KeepCountRounds(ns, cfg.keepChatRounds);
    assert RecentPart(cfg, history) == ns[|ns| - k..];
  }
}
