/** Shared vocabulary: optional values, the outcome of a call that may raise,
    bytes, and the pieces of Python's string behaviour the chat code relies on
    (truthiness, f-string rendering of None, str.strip() and str.isspace()). */
module Base {

  datatype Option<+T> = None | Some(value: T)

  /** The outcome of a call that may raise. A raised exception is carried as
      its message text, the str(e) the handlers print or store. */
  datatype Result<+T> = Success(value: T) | Failure(error: string)

  /** A key of a Python dict or a loaded YAML mapping: absent, present with
      a null value, or present with a value. `.get(key, default)` gives the
      default only for an absent key; a null value comes back as None. */
  datatype Field<+T> = Missing | Null | Given(value: T)

  newtype byte = b: int | 0 <= b < 256

  function OrElse<T>(o: Option<T>, default: T): T
  {
    match o
    case Some(v) => v
    case None => default
  }

  /** Python truthiness of an optional string: present and non-empty. */
  predicate Truthy(o: Option<string>)
  {
    o.Some? && o.value != ""
  }

  /** What an f-string writes for an optional string: None renders as "None". */
  function Show(o: Option<string>): string
  {
    match o
    case Some(s) => s
    case None => "None"
  }

  /** Python's str.isspace() for a single character. */
  predicate IsSpace(c: char)
  {
    || c == ' '
    || ('\t' <= c <= '\r')
    || ('\U{1C}' <= c <= '\U{1F}')
    || c == '\U{85}' || c == '\U{A0}' || c == '\U{1680}'
    || ('\U{2000}' <= c <= '\U{200A}')
    || c == '\U{2028}' || c == '\U{2029}' || c == '\U{202F}' || c == '\U{205F}'
    || c == '\U{3000}'
  }

  /** Neither end of the string is whitespace. */
  predicate IsStripped(s: string)
  {
    s == [] || (!IsSpace(s[0]) && !IsSpace(s[|s| - 1]))
  }

  /** The characters of `s` that are not whitespace, in order. */
  function NonSpace(s: string): string
  {
    if s == [] then []
    else (if IsSpace(s[0]) then [] else [s[0]]) + NonSpace(s[1..])
  }

  lemma {:induction false} NonSpaceAppend(a: string, b: string)
    ensures NonSpace(a + b) == NonSpace(a) + NonSpace(b)
  {
    if a != [] {
      assert (a + b)[1..] == a[1..] + b;
      NonSpaceAppend(a[1..], b);
    } else {
      assert a + b == b;
    }
  }

  function TrimStart(s: string): (r: string)
    ensures |r| <= |s| && r == s[|s| - |r|..]
    ensures r == [] || !IsSpace(r[0])
    ensures forall i :: 0 <= i < |s| - |r| ==> IsSpace(s[i])
    ensures NonSpace(r) == NonSpace(s)
  {
    if s != [] && IsSpace(s[0]) then TrimStart(s[1..]) else s
  }

  function TrimEnd(s: string): (r: string)
    ensures |r| <= |s| && r == s[..|r|]
    ensures r == [] || !IsSpace(r[|r| - 1])
    ensures forall i :: |r| <= i < |s| ==> IsSpace(s[i])
    ensures NonSpace(r) == NonSpace(s)
  {
    if s != [] && IsSpace(s[|s| - 1]) then
      var init := s[..|s| - 1];
      assert s == init + [s[|s| - 1]];
      NonSpaceAppend(init, [s[|s| - 1]]);
      TrimEnd(init)
    else s
  }

  /** Python's str.strip() with no arguments: drops leading and trailing
      whitespace and nothing else. */
  function Strip(s: string): (r: string)
    ensures IsStripped(r)
    ensures NonSpace(r) == NonSpace(s)
    ensures IsStripped(s) ==> r == s
    ensures r == [] <==> forall i :: 0 <= i < |s| ==> IsSpace(s[i])
    ensures Contains(s, r)
  {
    var t := TrimStart(s);
    var r := TrimEnd(t);
    TrimmedBothEnds(s, t, r);
    TrimmedNothing(s, t, r);
    TrimmedAll(s, t, r);
    r
  }

  lemma TrimmedBothEnds(s: string, t: string, r: string)
    requires t == TrimStart(s) && r == TrimEnd(t)
    ensures IsStripped(r) && Contains(s, r)
  {
    assert r <= s[|s| - |t|..];
    assert r != [] ==> r[0] == t[0];
  }

  lemma TrimmedNothing(s: string, t: string, r: string)
    requires t == TrimStart(s) && r == TrimEnd(t)
    ensures IsStripped(s) ==> r == s
  {
  }

  lemma TrimmedAll(s: string, t: string, r: string)
    requires t == TrimStart(s) && r == TrimEnd(t)
    ensures r == [] <==> forall i :: 0 <= i < |s| ==> IsSpace(s[i])
  {
    if r == [] {
      assert t == [];
    }
  }

  /** The strings joined end to end. */
  function Concat(ss: seq<string>): string
  {
    if ss == [] then "" else ss[0] + Concat(ss[1..])
  }

  lemma {:induction false} ConcatAppend(a: seq<string>, b: seq<string>)
    ensures Concat(a + b) == Concat(a) + Concat(b)
  {
    if a == [] {
      assert a + b == b;
    } else {
      assert (a + b)[1..] == a[1..] + b;
      ConcatAppend(a[1..], b);
    }
  }

  /** Dropping the head of a joined sequence drops it from the first part. */
  lemma TailOfAppend<T>(a: seq<T>, b: seq<T>)
    requires a != []
    ensures (a + b)[0] == a[0] && (a + b)[1..] == a[1..] + b
  {
  }

  /** `sub` occurs in `s` as a contiguous piece. */
  predicate Contains(s: string, sub: string)
  {
    exists i :: 0 <= i <= |s| && sub <= s[i..]
  }

  lemma ContainsJoined(a: string, sub: string, b: string)
    ensures Contains(a + sub + b, sub)
  {
    assert sub <= (a + sub + b)[|a|..];
  }

  lemma ContainsSuffix(a: string, sub: string)
    ensures Contains(a + sub, sub)
  {
    assert sub <= (a + sub)[|a|..];
  }
}
