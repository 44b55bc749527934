/** split_sentences of the voice handler: the buffered reply text is cut after
    every maximal run of sentence terminators (. ! ? and their full-width forms,
    and newline); each piece is stripped and kept when non-empty, and the text
    after the last run, stripped, is carried over as the unfinished remainder. */
module Sentences {
  import opened Base

  predicate IsTerminator(c: char)
  {
    c == '.' || c == '!' || c == '?' || c == '。' || c == '！' || c == '？' || c == '\n'
  }

  predicate NoTerminator(s: string)
  {
    forall i :: 0 <= i < |s| ==> !IsTerminator(s[i])
  }

  /** Once a terminator occurs, only terminators follow: the string holds at
      most one run of terminators, and any such run ends it. */
  predicate TrailingRun(s: string)
  {
    forall i, j :: 0 <= i < j < |s| && IsTerminator(s[i]) ==> IsTerminator(s[j])
  }

  /** What one emitted sentence looks like. */
  predicate IsSentence(s: string)
  {
    s != [] && IsStripped(s) && TrailingRun(s)
  }

  /** The position of the first terminator. */
  function FirstTerminator(s: string): (r: Option<nat>)
    ensures r.None? <==> NoTerminator(s)
    ensures r.Some? ==> r.value < |s| && IsTerminator(s[r.value]) && NoTerminator(s[..r.value])
  {
    if s == [] then None
    else if IsTerminator(s[0]) then Some(0)
    else
      match FirstTerminator(s[1..])
      case None => None
      case Some(i) => Some(i + 1)
  }

  /** The end of the terminator run that starts at `i`. */
  function RunEnd(s: string, i: nat): (j: nat)
    requires i <= |s|
    ensures i <= j <= |s|
    ensures forall k :: i <= k < j ==> IsTerminator(s[k])
    ensures j == |s| || !IsTerminator(s[j])
    decreases |s| - i
  {
    if i < |s| && IsTerminator(s[i]) then RunEnd(s, i + 1) else i
  }

  /** A slice of a string with no terminator has none either. */
  lemma NoTerminatorSlice(s: string, r: string)
    requires NoTerminator(s) && Contains(s, r)
    ensures NoTerminator(r)
  {
    var a :| 0 <= a <= |s| && r <= s[a..];
    assert forall k :: 0 <= k < |r| ==> r[k] == s[a + k];
  }

  /** A slice of a string with a trailing run has one too. */
  lemma TrailingRunSlice(s: string, r: string)
    requires TrailingRun(s) && Contains(s, r)
    ensures TrailingRun(r)
  {
    var a :| 0 <= a <= |s| && r <= s[a..];
    assert forall k :: 0 <= k < |r| ==> r[k] == s[a + k];
  }

  /** The text up to the end of its first terminator run has a trailing run. */
  lemma FirstPiece(text: string, i: nat, j: nat)
    requires i < j <= |text|
    requires NoTerminator(text[..i])
    requires forall k :: i <= k < j ==> IsTerminator(text[k])
    ensures TrailingRun(text[..j])
  {
    assert forall k :: 0 <= k < i ==> text[..j][k] == text[..i][k];
  }

  /** One piece, stripped: empty, or a sentence. */
  function Close(piece: string): (s: string)
    requires TrailingRun(piece)
    ensures s == [] || IsSentence(s)
    ensures NonSpace(s) == NonSpace(piece)
  {
    var s := Strip(piece);
    TrailingRunSlice(piece, s);
    s
  }

  /** The remainder: the stripped text when it holds no terminator. */
  function Tail(text: string): (s: string)
    requires NoTerminator(text)
    ensures IsStripped(s) && NoTerminator(s)
    ensures NonSpace(s) == NonSpace(text)
  {
    var s := Strip(text);
    NoTerminatorSlice(text, s);
    s
  }

  lemma NonSpaceJoin(a: string, b: string, x: string, y: string)
    requires NonSpace(a) == NonSpace(x) && NonSpace(b) == NonSpace(y)
    ensures NonSpace(a + b) == NonSpace(x + y)
  {
    NonSpaceAppend(a, b);
    NonSpaceAppend(x, y);
  }

  lemma ConcatLeadAppend(sentence: string, rest: seq<string>, remainder: string)
    ensures Concat(Lead(sentence) + rest) + remainder == sentence + (Concat(rest) + remainder)
  {
    ConcatAppend(Lead(sentence), rest);
    ConcatLead(sentence);
  }

  lemma JoinStep(text: string, j: nat, sentence: string, rest: seq<string>, remainder: string)
    requires j <= |text|
    requires NonSpace(sentence) == NonSpace(text[..j])
    requires NonSpace(Concat(rest) + remainder) == NonSpace(text[j..])
    ensures NonSpace(Concat(Lead(sentence) + rest) + remainder) == NonSpace(text)
  {
    ConcatLeadAppend(sentence, rest, remainder);
    NonSpaceJoin(sentence, Concat(rest) + remainder, text[..j], text[j..]);
    assert text[..j] + text[j..] == text;
  }

  /** Where the first piece ends: after the run its first terminator starts. */
  function PieceEnd(text: string): (j: nat)
    requires FirstTerminator(text).Some?
    ensures 0 < j <= |text| && TrailingRun(text[..j])
  {
    var i := FirstTerminator(text).value;
    var j := RunEnd(text, i + 1);
    FirstPiece(text, i, j);
    j
  }

  /** The sentence a closed piece contributes: none when it is empty. */
  function Lead(sentence: string): seq<string>
  {
    if sentence != [] then [sentence] else []
  }

  lemma ConcatLead(sentence: string)
    ensures Concat(Lead(sentence)) == sentence
  {
    if sentence != [] {
      assert Concat([sentence]) == sentence + Concat([]);
    }
  }

  /** split_sentences: the stripped pieces ending in a terminator run, in
      order, and the stripped text after the last run. */
  function Split(text: string): (r: (seq<string>, string))
    ensures IsStripped(r.1)
    decreases |text|
  {
    if FirstTerminator(text).None? then ([], Tail(text))
    else
      var j := PieceEnd(text);
      var rest := Split(text[j..]);
      (Lead(Close(text[..j])) + rest.0, rest.1)
  }

  /** Every piece emitted is a sentence: non-empty, stripped, holding at most
      one run of terminators, with nothing after that run. A run made only of
      line breaks is removed by the strip, so such a piece has no terminator. */
  lemma {:induction false} SplitSentences(text: string)
    ensures forall k :: 0 <= k < |Split(text).0| ==> IsSentence(Split(text).0[k])
    decreases |text|
  {
    if FirstTerminator(text).Some? {
      SplitSentences(text[PieceEnd(text)..]);
      SplitSentencesStep(text);
    }
  }

  lemma SplitSentencesStep(text: string)
    requires FirstTerminator(text).Some?
    requires var rest := Split(text[PieceEnd(text)..]).0;
             forall k :: 0 <= k < |rest| ==> IsSentence(rest[k])
    ensures forall k :: 0 <= k < |Split(text).0| ==> IsSentence(Split(text).0[k])
  {
    var j := PieceEnd(text);
    var sentence := Close(text[..j]);
    SplitUnfold(text);
    LeadSentences(sentence);
    AllSentences(Lead(sentence), Split(text[j..]).0);
  }

  /** One step of the split: the first piece's sentence, then the split of the rest. */
  lemma SplitUnfold(text: string)
    requires FirstTerminator(text).Some?
    ensures var j := PieceEnd(text);
            var rest := Split(text[j..]);
            Split(text) == (Lead(Close(text[..j])) + rest.0, rest.1)
  {
  }

  lemma LeadSentences(sentence: string)
    requires sentence == [] || IsSentence(sentence)
    ensures forall k :: 0 <= k < |Lead(sentence)| ==> IsSentence(Lead(sentence)[k])
  {
  }

  lemma AllSentences(head: seq<string>, rest: seq<string>)
    requires forall k :: 0 <= k < |head| ==> IsSentence(head[k])
    requires forall k :: 0 <= k < |rest| ==> IsSentence(rest[k])
    ensures forall k :: 0 <= k < |head + rest| ==> IsSentence((head + rest)[k])
  {
    assert forall k :: 0 <= k < |rest| ==> (head + rest)[|head| + k] == rest[k];
  }

  /** The remainder holds no terminator: it is the unfinished clause. */
  lemma {:induction false} SplitRemainder(text: string)
    ensures NoTerminator(Split(text).1)
    decreases |text|
  {
    if FirstTerminator(text).Some? {
      SplitRemainder(text[PieceEnd(text)..]);
    }
  }


  /** A text without terminators is all remainder, stripped. */
  lemma SplitNoTerminator(text: string)
    requires NoTerminator(text)
    ensures Split(text) == ([], Strip(text))
  {
  }

  /** Splitting loses only whitespace: the sentences and the remainder,
      joined, have the non-whitespace characters of the text, in order. */
  lemma {:induction false} SplitKeepsText(text: string)
    ensures NonSpace(Concat(Split(text).0) + Split(text).1) == NonSpace(text)
    decreases |text|
  {
    if FirstTerminator(text).None? {
      assert Concat([]) + Tail(text) == Tail(text);
    } else {
      var j := PieceEnd(text);
      var rest := Split(text[j..]);
      SplitKeepsText(text[j..]);
      JoinStep(text, j, Close(text[..j]), rest.0, rest.1);
    }
  }

  /** Position `b` ends a maximal run of terminators: the character before it
      is a terminator and the one at it, if any, is not. These are the `end()`
      positions of the matches `re.finditer` reports for the terminator class. */
  predicate EndsRun(text: string, b: int)
  {
    0 < b <= |text| && IsTerminator(text[b - 1]) && (b == |text| || !IsTerminator(text[b]))
  }

  /** A reference reading of split_sentences, one character at a time: the
      current piece starts at `start`, and the text is cut after position `i`
      exactly when `i + 1` ends a run. Each piece is kept stripped when it is
      not empty; what follows the last cut is the remainder. */
  function Scan(text: string, start: nat, i: nat): (seq<string>, string)
    requires start <= i <= |text|
    decreases |text| - i
  {
    if i == |text| then ([], Strip(text[start..]))
    else if EndsRun(text, i + 1) then
      var rest := Scan(text, i + 1, i + 1);
      (Lead(Strip(text[start..i + 1])) + rest.0, rest.1)
    else Scan(text, start, i + 1)
  }

  /** The number of run ends after position `i`. */
  function RunsAfter(text: string, i: nat): nat
    requires i <= |text|
    decreases |text| - i
  {
    if i == |text| then 0
    else (if EndsRun(text, i + 1) then 1 else 0) + RunsAfter(text, i + 1)
  }

  /** Scanning past positions that end no run changes nothing. */
  lemma {:induction false} ScanSkip(text: string, start: nat, i: nat, k: nat)
    requires start <= i <= k <= |text|
    requires forall b :: i < b <= k ==> !EndsRun(text, b)
    ensures Scan(text, start, i) == Scan(text, start, k)
    decreases k - i
  {
    if i < k {
      ScanSkip(text, start, i + 1, k);
    }
  }

  /** Scanning a suffix is scanning the whole text from the suffix's start. */
  lemma {:induction false} ScanShift(text: string, j: nat, s: nat, i: nat)
    requires j <= |text| && s <= i <= |text| - j
    ensures Scan(text, j + s, j + i) == Scan(text[j..], s, i)
    decreases |text| - j - i
  {
    var t := text[j..];
    if i == |t| {
      assert t[s..] == text[j + s..];
    } else {
      assert t[i] == text[j + i];
      assert i + 1 < |t| ==> t[i + 1] == text[j + i + 1];
      assert EndsRun(t, i + 1) <==> EndsRun(text, j + i + 1);
      if EndsRun(t, i + 1) {
        var piece := t[s..i + 1];
        assert piece == text[j + s..j + i + 1];
        ScanShift(text, j, i + 1, i + 1);
        var rest := Scan(t, i + 1, i + 1);
        assert Scan(text, j + i + 1, j + i + 1) == rest;
        assert Scan(t, s, i) == (Lead(Strip(piece)) + rest.0, rest.1);
        assert Scan(text, j + s, j + i) == (Lead(Strip(piece)) + rest.0, rest.1);
      } else {
        ScanShift(text, j, s, i + 1);
        assert Scan(text, j + s, j + i) == Scan(text, j + s, j + i + 1);
      }
    }
  }

  /** A text without terminators has no run end: the scan yields only the remainder. */
  lemma ScanNoRun(text: string)
    requires NoTerminator(text)
    ensures Scan(text, 0, 0) == ([], Strip(text))
  {
    forall b | 0 < b <= |text|
      ensures !EndsRun(text, b)
    {
      assert !IsTerminator(text[b - 1]);
    }
    ScanSkip(text, 0, 0, |text|);
    assert text[0..] == text;
  }

  /** Scanning from `j` is scanning the suffix that starts at `j`. */
  lemma ScanSuffix(text: string, j: nat)
    requires j <= |text|
    ensures Scan(text, j, j) == Scan(text[j..], 0, 0)
  {
    ScanShift(text, j, 0, 0);
  }

  /** The first run end is where the first piece of the split ends. */
  lemma FirstRunEnd(text: string)
    requires FirstTerminator(text).Some?
    ensures EndsRun(text, PieceEnd(text))
    ensures forall b :: 0 < b < PieceEnd(text) ==> !EndsRun(text, b)
  {
    var f := FirstTerminator(text).value;
    var j := PieceEnd(text);
    assert j == RunEnd(text, f + 1);
    forall b | 0 < b < j
      ensures !EndsRun(text, b)
    {
      if b - 1 < f {
        assert text[..f][b - 1] == text[b - 1];
      } else {
        assert IsTerminator(text[b]);
      }
    }
    if j - 1 > f {
      assert IsTerminator(text[j - 1]);
    }
  }

  /** The scan's first cut is at the end of the first run. */
  lemma ScanFirstPiece(text: string)
    requires FirstTerminator(text).Some?
    ensures var j := PieceEnd(text);
            var rest := Scan(text, j, j);
            Scan(text, 0, 0) == (Lead(Strip(text[..j])) + rest.0, rest.1)
  {
    FirstRunEnd(text);
    ScanFirstCut(text, PieceEnd(text));
  }

  /** Up to the first run end the scan only reads; there it emits the first piece. */
  lemma ScanFirstCut(text: string, j: nat)
    requires 0 < j <= |text| && EndsRun(text, j)
    requires forall b :: 0 < b < j ==> !EndsRun(text, b)
    ensures var rest := Scan(text, j, j);
            Scan(text, 0, 0) == (Lead(Strip(text[..j])) + rest.0, rest.1)
  {
    ScanSkip(text, 0, 0, j - 1);
    ScanCut(text, 0, j);
    assert text[0..j] == text[..j];
  }

  /** At a run end `j` the scan emits the current piece and starts the next. */
  lemma ScanCut(text: string, start: nat, j: nat)
    requires start < j <= |text| && EndsRun(text, j)
    ensures var rest := Scan(text, j, j);
            Scan(text, start, j - 1) == (Lead(Strip(text[start..j])) + rest.0, rest.1)
  {
    var i := j - 1;
    assert i + 1 == j;
  }

  /** split_sentences cuts the text exactly at the ends of its maximal
      terminator runs: each emitted sentence is the stripped text between two
      consecutive run ends (or the start of the text and the first run end),
      empty pieces are dropped, and the remainder is the stripped text after
      the last run end. */
  lemma {:induction false} SplitIsScan(text: string)
    ensures Split(text) == Scan(text, 0, 0)
    decreases |text|
  {
    if FirstTerminator(text).None? {
      ScanNoRun(text);
    } else {
      var j := PieceEnd(text);
      var rest := Split(text[j..]);
      assert Split(text) == (Lead(Close(text[..j])) + rest.0, rest.1) by {
        SplitUnfold(text);
      }
      SplitIsScan(text[j..]);
      ScanSuffix(text, j);
      assert Scan(text, 0, 0) == (Lead(Strip(text[..j])) + rest.0, rest.1) by {
        ScanFirstPiece(text);
      }
      assert Close(text[..j]) == Strip(text[..j]);
    }
  }

  /** A scan emits at most one sentence per run end it passes. */
  lemma {:induction false} ScanCount(text: string, start: nat, i: nat)
    requires start <= i <= |text|
    ensures |Scan(text, start, i).0| <= RunsAfter(text, i)
    decreases |text| - i
  {
    if i < |text| {
      if EndsRun(text, i + 1) {
        ScanCount(text, i + 1, i + 1);
      } else {
        ScanCount(text, start, i + 1);
      }
    }
  }

  /** A run of consecutive terminators closes at most one sentence: the
      sentences emitted are no more than the maximal runs in the text. */
  lemma SplitCount(text: string)
    ensures |Split(text).0| <= RunsAfter(text, 0)
  {
    SplitIsScan(text);
    ScanCount(text, 0, 0);
  }

}
