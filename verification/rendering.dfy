/** chat_with_tts and _handle_audio_data of the voice handler, as a fold over
    the items the worker puts on the message queue: text fragments, ended by a
    None sentinel. Each fragment is appended to the buffer, the complete
    sentences are synthesised in order and the buffer keeps the remainder; at
    the sentinel a non-empty buffer gets one last synthesis. Empty audio is
    dropped; the rest is delivered (to the socket or the playback queue). */
module Rendering {
  import opened Base
  import opened Sentences

  /** text_to_speech: the audio for a text, or the exception it raised. */
  type Tts = string -> Result<seq<byte>>

  /** How the fold ended: at the sentinel, because no item came within the
      wait (the queue ran dry), or with an exception from the synthesiser. */
  datatype Status = Completed | TimedOut | TtsFailed(error: string)

  /** The texts sent to the synthesiser, the audio delivered, the queue items
      left unread, and how the fold ended. */
  datatype Rendered = Rendered(spoken: seq<string>, delivered: seq<seq<byte>>, read: nat, status: Status)

  /** What speaking a list of texts did: the texts sent, the audio delivered,
      and the exception that stopped it. */
  datatype Spoken = Spoken(sent: seq<string>, delivered: seq<seq<byte>>, error: Option<string>)

  /** _handle_audio_data: only non-empty audio is passed on. */
  function Deliver(audio: seq<byte>): seq<seq<byte>>
  {
    if audio != [] then [audio] else []
  }

  /** The audio the texts make, empty pieces dropped; defined when every synthesis succeeds. */
  function AudioOf(tts: Tts, texts: seq<string>): seq<seq<byte>>
    requires forall k :: 0 <= k < |texts| ==> tts(texts[k]).Success?
  {
    if texts == [] then [] else Deliver(tts(texts[0]).value) + AudioOf(tts, texts[1..])
  }

  /** Synthesise the texts in order, stopping at the first exception. */
  function Speak(tts: Tts, texts: seq<string>): (s: Spoken)
    ensures s.error.None? ==> s.sent == texts
    ensures s.error.Some? ==>
              && 0 < |s.sent| <= |texts| && s.sent == texts[..|s.sent|]
              && tts(s.sent[|s.sent| - 1]) == Failure(s.error.value)
  {
    if texts == [] then Spoken([], [], None)
    else
      match tts(texts[0])
      case Failure(e) => Spoken([texts[0]], [], Some(e))
      case Success(audio) =>
        var more := Speak(tts, texts[1..]);
        Spoken([texts[0]] + more.sent, Deliver(audio) + more.delivered, more.error)
  }

  /** Speaking completes exactly when every synthesis succeeds, and then
      delivers the audio of all the texts. */
  lemma {:induction false} SpeakSucceeds(tts: Tts, texts: seq<string>)
    ensures Speak(tts, texts).error.None? <==> forall k :: 0 <= k < |texts| ==> tts(texts[k]).Success?
    ensures Speak(tts, texts).error.None? ==> Speak(tts, texts).delivered == AudioOf(tts, texts)
  {
    if texts != [] {
      SpeakSucceeds(tts, texts[1..]);
      assert forall k :: 0 <= k < |texts[1..]| ==> texts[1..][k] == texts[k + 1];
    }
  }

  /** The text fragments before the first sentinel, joined. */
  function Received(queue: seq<Option<string>>): string
  {
    if queue == [] || queue[0].None? then "" else queue[0].value + Received(queue[1..])
  }

  /** The fold from a given buffer. */
  function Render(tts: Tts, queue: seq<Option<string>>, buffer: string): (r: Rendered)
    requires IsStripped(buffer)
    ensures r.read <= |queue|
    decreases |queue|
  {
    if queue == [] then Rendered([], [], 0, TimedOut)
    else if queue[0].None? then
      var s := Speak(tts, Flushed(buffer));
      Rendered(s.sent, s.delivered, 1, if s.error.Some? then TtsFailed(s.error.value) else Completed)
    else
      var split := Split(buffer + queue[0].value);
      var sentences, remainder := split.0, split.1;
      var s := Speak(tts, sentences);
      if s.error.Some? then
        Rendered(s.sent, s.delivered, 1, TtsFailed(s.error.value))
      else
        var more := Render(tts, queue[1..], remainder);
        Rendered(sentences + more.spoken, s.delivered + more.delivered, 1 + more.read, more.status)
  }

  // ---- One step of the fold ----

  /** The fold on a text fragment whose sentences all synthesise: the
      sentences, then what the rest of the queue gives. */
  lemma RenderText(tts: Tts, queue: seq<Option<string>>, buffer: string)
    requires IsStripped(buffer) && queue != [] && queue[0].Some?
    requires Speak(tts, Split(buffer + queue[0].value).0).error.None?
    ensures var split := Split(buffer + queue[0].value);
            var more := Render(tts, queue[1..], split.1);
            var r := Render(tts, queue, buffer);
            && r.spoken == split.0 + more.spoken
            && r.delivered == Speak(tts, split.0).delivered + more.delivered
            && r.read == 1 + more.read
            && r.status == more.status
  {
  }

  /** The fold on a text fragment whose synthesis fails: it stops there. */
  lemma RenderTextFails(tts: Tts, queue: seq<Option<string>>, buffer: string)
    requires IsStripped(buffer) && queue != [] && queue[0].Some?
    requires Speak(tts, Split(buffer + queue[0].value).0).error.Some?
    ensures var s := Speak(tts, Split(buffer + queue[0].value).0);
            Render(tts, queue, buffer) == Rendered(s.sent, s.delivered, 1, TtsFailed(s.error.value))
  {
  }

  /** The texts flushed at the sentinel: the buffer, when it is not empty. */
  function Flushed(buffer: string): seq<string>
  {
    if buffer != [] then [buffer] else []
  }

  /** The fold at the sentinel: the buffer is spoken and the fold ends. */
  lemma RenderSentinel(tts: Tts, queue: seq<Option<string>>, buffer: string)
    requires IsStripped(buffer) && queue != [] && queue[0].None?
    ensures var s := Speak(tts, Flushed(buffer));
            Render(tts, queue, buffer)
              == Rendered(s.sent, s.delivered, 1, if s.error.Some? then TtsFailed(s.error.value) else Completed)
  {
  }

  // ---- Where the fold stops ----

  /** A fold that timed out read every item, and none was a sentinel. */
  predicate TimesOutAtEnd(queue: seq<Option<string>>, r: Rendered)
  {
    r.status == TimedOut ==> r.read == |queue| && forall i :: 0 <= i < |queue| ==> queue[i].Some?
  }

  lemma TimesOutAtEndStep(queue: seq<Option<string>>, more: Rendered, r: Rendered)
    requires queue != [] && queue[0].Some? && TimesOutAtEnd(queue[1..], more)
    requires r.read == 1 + more.read && r.status == more.status
    ensures TimesOutAtEnd(queue, r)
  {
    if r.status == TimedOut {
      forall i | 0 <= i < |queue|
        ensures queue[i].Some?
      {
        if i > 0 {
          assert queue[i] == queue[1..][i - 1];
        }
      }
    }
  }

  /** The fold times out only when no sentinel came: it read the whole queue. */
  lemma {:induction false} RenderTimesOutWithoutSentinel(tts: Tts, queue: seq<Option<string>>, buffer: string)
    requires IsStripped(buffer)
    ensures TimesOutAtEnd(queue, Render(tts, queue, buffer))
    decreases |queue|
  {
    if queue == [] {
    } else if queue[0].None? {
      RenderSentinel(tts, queue, buffer);
    } else if Speak(tts, Split(buffer + queue[0].value).0).error.None? {
      var split := Split(buffer + queue[0].value);
      RenderTimesOutWithoutSentinel(tts, queue[1..], split.1);
      RenderText(tts, queue, buffer);
      TimesOutAtEndStep(queue, Render(tts, queue[1..], split.1), Render(tts, queue, buffer));
    } else {
      RenderTextFails(tts, queue, buffer);
    }
  }

  /** A completed fold read up to and including the first sentinel: the
      last item read is a sentinel and every earlier one is text. */
  predicate EndsAtSentinel(queue: seq<Option<string>>, r: Rendered)
  {
    r.status == Completed ==>
      && 0 < r.read <= |queue| && queue[r.read - 1].None?
      && forall i :: 0 <= i < r.read - 1 ==> queue[i].Some?
  }

  lemma EndsAtSentinelStep(queue: seq<Option<string>>, more: Rendered, r: Rendered)
    requires queue != [] && queue[0].Some? && EndsAtSentinel(queue[1..], more)
    requires r.read == 1 + more.read && r.status == more.status
    ensures EndsAtSentinel(queue, r)
  {
    if r.status == Completed {
      assert queue[r.read - 1] == queue[1..][more.read - 1];
      forall i | 0 <= i < r.read - 1
        ensures queue[i].Some?
      {
        if i > 0 {
          assert queue[i] == queue[1..][i - 1];
        }
      }
    }
  }

  /** A completed fold stops at the first sentinel: the last item it read is
      the sentinel and every earlier item is text; the items after it are
      left for the next turn. */
  lemma {:induction false} RenderStopsAtSentinel(tts: Tts, queue: seq<Option<string>>, buffer: string)
    requires IsStripped(buffer)
    ensures EndsAtSentinel(queue, Render(tts, queue, buffer))
    decreases |queue|
  {
    if queue == [] {
    } else if queue[0].None? {
      RenderSentinel(tts, queue, buffer);
    } else if Speak(tts, Split(buffer + queue[0].value).0).error.None? {
      var split := Split(buffer + queue[0].value);
      RenderStopsAtSentinel(tts, queue[1..], split.1);
      RenderText(tts, queue, buffer);
      EndsAtSentinelStep(queue, Render(tts, queue[1..], split.1), Render(tts, queue, buffer));
    } else {
      RenderTextFails(tts, queue, buffer);
    }
  }

  // ---- What is spoken ----

  /** Texts fit for the synthesiser: each non-empty, with no surrounding whitespace. */
  predicate Speakable(texts: seq<string>)
  {
    forall k :: 0 <= k < |texts| ==> texts[k] != [] && IsStripped(texts[k])
  }

  lemma SentencesSpeakable(sentences: seq<string>)
    requires forall k :: 0 <= k < |sentences| ==> IsSentence(sentences[k])
    ensures Speakable(sentences)
  {
  }

  lemma SpeakableAppend(a: seq<string>, b: seq<string>)
    requires Speakable(a) && Speakable(b)
    ensures Speakable(a + b)
  {
    assert forall k :: 0 <= k < |b| ==> (a + b)[|a| + k] == b[k];
  }

  lemma SpeakablePrefix(a: seq<string>, b: seq<string>)
    requires Speakable(a) && |b| <= |a| && b == a[..|b|]
    ensures Speakable(b)
  {
    assert forall k :: 0 <= k < |b| ==> b[k] == a[k];
  }

  /** Every text sent to the synthesiser is non-empty and has no surrounding
      whitespace: a sentence, or the remainder flushed at the sentinel. */
  lemma {:induction false} RenderSpeaksTrimmedText(tts: Tts, queue: seq<Option<string>>, buffer: string)
    requires IsStripped(buffer)
    ensures Speakable(Render(tts, queue, buffer).spoken)
    decreases |queue|
  {
    if queue == [] {
    } else if queue[0].None? {
      RenderSentinel(tts, queue, buffer);
      SpeakablePrefix(Flushed(buffer), Speak(tts, Flushed(buffer)).sent);
    } else {
      var split := Split(buffer + queue[0].value);
      SplitSentences(buffer + queue[0].value);
      SentencesSpeakable(split.0);
      if Speak(tts, split.0).error.None? {
        RenderSpeaksTrimmedText(tts, queue[1..], split.1);
        RenderText(tts, queue, buffer);
        SpeakableAppend(split.0, Render(tts, queue[1..], split.1).spoken);
      } else {
        RenderTextFails(tts, queue, buffer);
        SpeakablePrefix(split.0, Speak(tts, split.0).sent);
      }
    }
  }

  // ---- What is delivered ----

  /** Unless the fold ended in a synthesis failure, every text spoken was
      synthesised and the audio delivered is theirs, in order, empty pieces dropped. */
  predicate DeliversSpoken(tts: Tts, r: Rendered)
  {
    !r.status.TtsFailed? ==>
      && (forall k :: 0 <= k < |r.spoken| ==> tts(r.spoken[k]).Success?)
      && r.delivered == AudioOf(tts, r.spoken)
  }

  lemma DeliversSpokenStep(tts: Tts, sentences: seq<string>, more: Rendered, r: Rendered)
    requires Speak(tts, sentences).error.None? && DeliversSpoken(tts, more)
    requires r.spoken == sentences + more.spoken && r.status == more.status
    requires r.delivered == Speak(tts, sentences).delivered + more.delivered
    ensures DeliversSpoken(tts, r)
  {
    SpeakSucceeds(tts, sentences);
    if !r.status.TtsFailed? {
      assert forall k :: 0 <= k < |more.spoken| ==> r.spoken[|sentences| + k] == more.spoken[k];
      AudioOfAppend(tts, sentences, more.spoken);
    }
  }

  /** Unless the synthesiser raises, every text spoken was synthesised and
      the audio delivered is the audio of the texts spoken, in order, with
      empty pieces dropped. */
  lemma {:induction false} RenderDeliversAudio(tts: Tts, queue: seq<Option<string>>, buffer: string)
    requires IsStripped(buffer)
    ensures DeliversSpoken(tts, Render(tts, queue, buffer))
    decreases |queue|
  {
    if queue == [] {
    } else if queue[0].None? {
      RenderSentinel(tts, queue, buffer);
      SpeakSucceeds(tts, Flushed(buffer));
    } else if Speak(tts, Split(buffer + queue[0].value).0).error.None? {
      var split := Split(buffer + queue[0].value);
      RenderDeliversAudio(tts, queue[1..], split.1);
      RenderText(tts, queue, buffer);
      DeliversSpokenStep(tts, split.0, Render(tts, queue[1..], split.1), Render(tts, queue, buffer));
    } else {
      RenderTextFails(tts, queue, buffer);
    }
  }

  /** A fold that ended in a synthesis failure spoke, last, the text that failed. */
  predicate FailsOnLast(tts: Tts, r: Rendered)
  {
    r.status.TtsFailed? ==> r.spoken != [] && tts(r.spoken[|r.spoken| - 1]) == Failure(r.status.error)
  }

  lemma FailsOnLastStep(tts: Tts, sentences: seq<string>, more: Rendered, r: Rendered)
    requires FailsOnLast(tts, more)
    requires r.spoken == sentences + more.spoken && r.status == more.status
    ensures FailsOnLast(tts, r)
  {
    if r.status.TtsFailed? {
      assert r.spoken[|r.spoken| - 1] == more.spoken[|more.spoken| - 1];
    }
  }

  /** When the synthesiser raises, the last text spoken is the one it raised on. */
  lemma {:induction false} RenderStopsAtFailure(tts: Tts, queue: seq<Option<string>>, buffer: string)
    requires IsStripped(buffer)
    ensures FailsOnLast(tts, Render(tts, queue, buffer))
    decreases |queue|
  {
    if queue == [] {
    } else if queue[0].None? {
      RenderSentinel(tts, queue, buffer);
    } else if Speak(tts, Split(buffer + queue[0].value).0).error.None? {
      var split := Split(buffer + queue[0].value);
      RenderStopsAtFailure(tts, queue[1..], split.1);
      RenderText(tts, queue, buffer);
      FailsOnLastStep(tts, split.0, Render(tts, queue[1..], split.1), Render(tts, queue, buffer));
    } else {
      RenderTextFails(tts, queue, buffer);
    }
  }

  // ---- Nothing is lost ----

  /** A completed fold spoke the buffer and the text received, whitespace aside. */
  predicate SpeaksReceived(queue: seq<Option<string>>, buffer: string, r: Rendered)
  {
    r.status == Completed ==> NonSpace(Concat(r.spoken)) == NonSpace(buffer + Received(queue))
  }

  lemma SpeaksReceivedStep(queue: seq<Option<string>>, buffer: string, sentences: seq<string>, remainder: string, more: Rendered, r: Rendered)
    requires queue != [] && queue[0].Some?
    requires NonSpace(Concat(sentences) + remainder) == NonSpace(buffer + queue[0].value)
    requires SpeaksReceived(queue[1..], remainder, more)
    requires r.spoken == sentences + more.spoken && r.status == more.status
    ensures SpeaksReceived(queue, buffer, r)
  {
    var text := buffer + queue[0].value;
    Concatenated(sentences, more.spoken, text, remainder, Received(queue[1..]));
    assert Received(queue) == queue[0].value + Received(queue[1..]);
    assert text + Received(queue[1..]) == buffer + Received(queue);
  }

  lemma SpeaksReceivedAtSentinel(tts: Tts, queue: seq<Option<string>>, buffer: string)
    requires IsStripped(buffer) && queue != [] && queue[0].None?
    ensures SpeaksReceived(queue, buffer, Render(tts, queue, buffer))
  {
    RenderSentinel(tts, queue, buffer);
    assert buffer + Received(queue) == buffer;
    var s := Speak(tts, Flushed(buffer));
    if s.error.None? {
      assert s.sent == Flushed(buffer);
      assert Concat(Flushed(buffer)) == buffer by {
        if buffer != [] {
          assert Concat([buffer]) == buffer + Concat([]);
        }
      }
    }
  }

  /** A completed fold speaks all the text it received, whitespace aside:
      the buffer and the fragments before the sentinel, in order. */
  lemma {:induction false} RenderSpeaksEverything(tts: Tts, queue: seq<Option<string>>, buffer: string)
    requires IsStripped(buffer)
    ensures SpeaksReceived(queue, buffer, Render(tts, queue, buffer))
    decreases |queue|
  {
    if queue == [] {
    } else if queue[0].None? {
      SpeaksReceivedAtSentinel(tts, queue, buffer);
    } else if Speak(tts, Split(buffer + queue[0].value).0).error.None? {
      var split := Split(buffer + queue[0].value);
      SplitKeepsText(buffer + queue[0].value);
      RenderSpeaksEverything(tts, queue[1..], split.1);
      RenderText(tts, queue, buffer);
      SpeaksReceivedStep(queue, buffer, split.0, split.1, Render(tts, queue[1..], split.1), Render(tts, queue, buffer));
    } else {
      RenderTextFails(tts, queue, buffer);
    }
  }

  /** Whitespace aside, one chunk's sentences followed by what the rest of the
      fold spoke are the chunk's text followed by what the rest received. */
  lemma Concatenated(sentences: seq<string>, later: seq<string>, text: string, remainder: string, received: string)
    requires NonSpace(Concat(sentences) + remainder) == NonSpace(text)
    ensures NonSpace(Concat(later)) == NonSpace(remainder + received) ==>
              NonSpace(Concat(sentences + later)) == NonSpace(text + received)
  {
    var cs := Concat(sentences);
    ConcatAppend(sentences, later);
    NonSpaceAppend(cs, Concat(later));
    NonSpaceAppend(remainder, received);
    NonSpaceAppend(cs, remainder);
    NonSpaceAppend(text, received);
  }

  lemma {:induction false} AudioOfAppend(tts: Tts, a: seq<string>, b: seq<string>)
    requires forall k :: 0 <= k < |a| ==> tts(a[k]).Success?
    requires forall k :: 0 <= k < |b| ==> tts(b[k]).Success?
    ensures AudioOf(tts, a + b) == AudioOf(tts, a) + AudioOf(tts, b)
  {
    if a == [] {
      assert a + b == b;
    } else {
      assert (a + b)[1..] == a[1..] + b;
      AudioOfAppend(tts, a[1..], b);
    }
  }

  /** chat_with_tts for one turn: the fold from an empty buffer. */
  function ChatWithTts(tts: Tts, queue: seq<Option<string>>): (r: Rendered)
    ensures r.read <= |queue|
    ensures r.status == Completed ==> NonSpace(Concat(r.spoken)) == NonSpace(Received(queue))
  {
    RenderSpeaksEverything(tts, queue, "");
    assert "" + Received(queue) == Received(queue);
    Render(tts, queue, "")
  }
}
