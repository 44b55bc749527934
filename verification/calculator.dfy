/** The local calculator server: two tools, `add` and `minus`, whose integer
    parameters default to 10 and must lie in 1..100; an argument outside the
    range is rejected by validation before the tool body runs. Served through
    the tool gateway, the calculator is a concrete executor. */
module Calculator {
  import opened Base
  import opened ToolGateway

  const Low: int := 1
  const High: int := 100
  const DefaultArg: int := 10

  /** The validation messages, after the parameter name. */
  const TooSmall: string := ": Input should be greater than or equal to 1"
  const TooLarge: string := ": Input should be less than or equal to 100"
  const NotInteger: string := "Input should be a valid integer"
  const HasFraction: string := "Input should be a valid integer, got a number with a fractional part"
  const NotNumeric: string := "Input should be a valid integer, unable to parse string as an integer"

  /** A JSON value as an argument of the tool call. A number written with a
      fraction part or exponent is `digits / 10^scale`; arrays and objects are
      `JOther`. */
  datatype Json = JInt(n: int) | JFloat(digits: int, scale: nat) | JString(s: string) | JBool(b: bool) | JNull | JOther

  function Pow10(k: nat): (p: nat)
    ensures p > 0
  {
    if k == 0 then 1 else 10 * Pow10(k - 1)
  }

  /** The value of `s` read as decimal digits, or None when some character
      of it is not a digit. */
  function Digits(s: string): (r: Option<nat>)
  {
    if s == [] then Some(0)
    else
      var c := s[|s| - 1];
      match Digits(s[..|s| - 1])
      case None => None
      case Some(v) => if '0' <= c <= '9' then Some(v * 10 + (c - '0') as int) else None
  }

  /** A string read as a decimal integer: an optional minus sign, then at least
      one digit and nothing else. */
  function ParseInt(s: string): (r: Option<int>)
    ensures r.Some? ==> s != []
    ensures s != [] && s[0] != '-' ==> r == (if Digits(s).Some? then Some(Digits(s).value as int) else None)
  {
    if s != [] && s[0] == '-' then
      if |s| > 1 && Digits(s[1..]).Some? then Some(-(Digits(s[1..]).value as int)) else None
    else if s != [] && Digits(s).Some? then Some(Digits(s).value as int)
    else None
  }

  /** Validation of an `int` parameter in lax mode: integers pass, booleans
      count as 1 and 0, a number passes only without a fractional part, a
      string only when it reads as an integer; null and anything else fail. */
  function LaxInt(j: Json): (r: Result<int>)
    ensures j.JInt? ==> r == Success(j.n)
    ensures j.JBool? ==> r == Success(if j.b then 1 else 0)
    ensures j.JFloat? ==> (r.Success? <==> j.digits % Pow10(j.scale) == 0)
    ensures j.JFloat? && r.Success? ==> r.value * Pow10(j.scale) == j.digits
    ensures j.JString? ==> (r.Success? <==> ParseInt(j.s).Some?)
    ensures j.JString? && r.Success? ==> r.value == ParseInt(j.s).value
    ensures j.JNull? || j.JOther? ==> r == Failure(NotInteger)
  {
    match j
    case JInt(n) => Success(n)
    case JBool(b) => Success(if b then 1 else 0)
    case JFloat(d, k) => if d % Pow10(k) == 0 then Success(d / Pow10(k)) else Failure(HasFraction)
    case JString(t) => (if ParseInt(t).Some? then Success(ParseInt(t).value) else Failure(NotNumeric))
    case JNull => Failure(NotInteger)
    case JOther => Failure(NotInteger)
  }

  /** The decimal text of a natural number is a run of digits worth that number. */
  lemma {:induction false} ShowNatDigits(n: nat)
    ensures ShowNat(n) != [] && '0' <= ShowNat(n)[0] <= '9' && Digits(ShowNat(n)) == Some(n)
    decreases n
  {
    var t := ShowNat(n);
    if n >= 10 {
      ShowNatDigits(n / 10);
      var h := ShowNat(n / 10);
      assert t == h + [DigitChar(n % 10)];
      assert t[..|t| - 1] == h && t[0] == h[0];
    } else {
      assert t == [DigitChar(n)];
      assert t[..0] == [];
    }
  }

  /** The text the tool returns for an integer reads back as that integer. */
  lemma ParseShowInt(n: int)
    ensures ParseInt(ShowInt(n)) == Some(n)
  {
    if n < 0 {
      ShowNatDigits(-n);
      ParseNegative(ShowInt(n), ShowNat(-n));
    } else {
      ShowNatDigits(n);
    }
  }

  /** A minus sign before a run of digits reads as the negated run. */
  lemma ParseNegative(s: string, t: string)
    requires t != [] && Digits(t).Some? && s == "-" + t
    ensures ParseInt(s) == Some(-(Digits(t).value as int))
  {
    assert s[0] == '-' && s[1..] == t;
  }

  /** An integer multiple divides exactly. */
  lemma MulDivExact(n: int, p: int)
    requires p > 0
    ensures (n * p) % p == 0 && (n * p) / p == n
  {
    var q, r := (n * p) / p, (n * p) % p;
    assert p * (n - q) == r && 0 <= r < p;
    SmallMultiple(p, n - q);
  }

  /** A non-zero multiple of a positive number is at least that number away from zero. */
  lemma MultipleSize(p: int, d: int)
    requires p > 0
    ensures d >= 1 ==> p * d >= p
    ensures d <= -1 ==> p * d <= -p
  {
    if d >= 1 {
      assert p * d == p * (d - 1) + p;
      assert p * (d - 1) >= 0;
    } else if d <= -1 {
      assert p * d == p * (d + 1) - p;
      assert p * (d + 1) <= 0;
    }
  }

  /** A multiple of a positive number that lies below it is zero times it. */
  lemma SmallMultiple(p: int, d: int)
    requires p > 0 && 0 <= p * d < p
    ensures d == 0
  {
    MultipleSize(p, d);
  }

  /** One integer, three spellings: lax validation reads the integer, its
      decimal text and any float spelling of it alike. */
  lemma LaxIntSpellings(n: int, scale: nat)
    ensures LaxInt(JInt(n)) == Success(n)
    ensures LaxInt(JString(ShowInt(n))) == Success(n)
    ensures LaxInt(JFloat(n * Pow10(scale), scale)) == Success(n)
  {
    ParseShowInt(n);
    MulDivExact(n, Pow10(scale));
  }

  /** The validated value of one parameter: the default only when the
      argument is absent; a null argument is an invalid integer. */
  function Param(name: string, v: Option<Json>): (r: Result<int>)
    ensures r.Success? <==> v.None? || (LaxInt(v.value).Success? && Low <= LaxInt(v.value).value <= High)
    ensures r.Success? ==> Low <= r.value <= High
    ensures v.None? ==> r == Success(DefaultArg)
    ensures r.Success? && v.Some? ==> r.value == LaxInt(v.value).value
    ensures v == Some(JNull) ==> r == Failure(name + ": " + NotInteger)
  {
    match v
    case None => Success(DefaultArg)
    case Some(j) =>
      match LaxInt(j)
      case Failure(e) => Failure(name + ": " + e)
      case Success(n) =>
        if n < Low then Failure(name + TooSmall)
        else if n > High then Failure(name + TooLarge)
        else Success(n)
  }

  /** add: the sum of the validated arguments, in 2..200. */
  function Add(x: Option<Json>, y: Option<Json>): (r: Result<int>)
    ensures r.Success? <==> Param("x", x).Success? && Param("y", y).Success?
    ensures r.Success? ==> 2 <= r.value <= 200
    ensures r.Success? ==> r.value == Param("x", x).value + Param("y", y).value
  {
    match Param("x", x)
    case Failure(e) => Failure(e)
    case Success(a) =>
      match Param("y", y)
      case Failure(e) => Failure(e)
      case Success(b) => Success(a + b)
  }

  /** minus: the difference of the validated arguments, in -99..99. */
  function Minus(x: Option<Json>, y: Option<Json>): (r: Result<int>)
    ensures r.Success? <==> Param("x", x).Success? && Param("y", y).Success?
    ensures r.Success? ==> -99 <= r.value <= 99
    ensures r.Success? ==> r.value == Param("x", x).value - Param("y", y).value
  {
    match Param("x", x)
    case Failure(e) => Failure(e)
    case Success(a) =>
      match Param("y", y)
      case Failure(e) => Failure(e)
      case Success(b) => Success(a - b)
  }

  /** minus undoes add: when the sum is itself a valid argument, subtracting
      the second argument again gives back the first, also when the sum is
      passed on as the text the tool returned. */
  lemma MinusUndoesAdd(x: int, y: int)
    requires Low <= x <= High && Low <= y <= High && x + y <= High
    ensures Add(Some(JInt(x)), Some(JInt(y))).Success?
    ensures Minus(Some(JInt(Add(Some(JInt(x)), Some(JInt(y))).value)), Some(JInt(y))) == Success(x)
    ensures Minus(Some(JString(ShowInt(Add(Some(JInt(x)), Some(JInt(y))).value))), Some(JInt(y))) == Success(x)
  {
    ParseShowInt(x + y);
  }

  /** add is symmetric, minus is antisymmetric, on valid arguments. */
  lemma SwapArguments(x: Option<Json>, y: Option<Json>)
    ensures Add(x, y).Success? ==> Add(y, x) == Add(x, y)
    ensures Minus(x, y).Success? ==> Minus(y, x) == Success(-Minus(x, y).value)
  {
  }

  /** With both arguments left out, each tool works on the defaults 10 and 10;
      an explicit null is not left out and fails validation. */
  lemma Defaults()
    ensures Add(None, None) == Success(20)
    ensures Minus(None, None) == Success(0)
    ensures Add(Some(JNull), None).Failure?
  {
  }

  /** The documented examples: add(2, 3) is 5 and minus(3, 2) is 1. */
  lemma DocumentedExamples()
    ensures Add(Some(JInt(2)), Some(JInt(3))) == Success(5)
    ensures Minus(Some(JInt(3)), Some(JInt(2))) == Success(1)
  {
  }

  /** Lax validation at work: "5", 5.0 and true are accepted as 5, 5 and 1;
      2.5, "abc" and null are rejected. */
  lemma LaxExamples(five: string, abc: string)
    requires five == "5" && abc == "abc"
    ensures Param("x", Some(JString(five))) == Success(5)
    ensures Param("x", Some(JFloat(50, 1))) == Success(5)
    ensures Param("x", Some(JBool(true))) == Success(1)
    ensures Param("x", Some(JFloat(25, 1))).Failure?
    ensures Param("x", Some(JString(abc))).Failure?
    ensures Param("x", Some(JNull)).Failure?
  {
    assert Digits(five) == Some(5) by {
      assert five[..0] == [];
    }
    assert Digits(abc) == None by {
      assert abc[..2] == "ab" && abc[..2][..1] == "a" && "a"[..0] == [];
    }
  }

  /** The decimal text of an integer, as the tool result carries it. */
  function ShowInt(n: int): string
  {
    if n < 0 then "-" + ShowNat(-n) else ShowNat(n)
  }

  function ShowNat(n: nat): string
  {
    if n < 10 then [DigitChar(n)] else ShowNat(n / 10) + [DigitChar(n % 10)]
  }

  /** The character of a decimal digit. */
  function DigitChar(d: nat): (c: char)
    requires d < 10
    ensures '0' <= c <= '9' && (c - '0') as int == d
  {
    ('0' as int + d) as char
  }

  /** Parsed arguments: the JSON object's fields. */
  type Args = map<string, Json>

  function Lookup(args: Args, key: string): Option<Json>
  {
    if key in args then Some(args[key]) else None
  }

  /** The calculator served as a tool executor: `add` and `minus` by name,
      the result as one text item. */
  function CalculatorTool(name: Option<string>, args: Args): (r: Result<seq<Content>>)
    ensures name == Some("add") ==>
              (r.Success? <==> Add(Lookup(args, "x"), Lookup(args, "y")).Success?)
    ensures name == Some("minus") ==>
              (r.Success? <==> Minus(Lookup(args, "x"), Lookup(args, "y")).Success?)
    ensures name != Some("add") && name != Some("minus") ==> r.Failure?
    ensures r.Success? ==> |r.value| == 1 && r.value[0].TextContent?
    ensures r.Success? && name == Some("add") ==> ParseInt(r.value[0].text) == Some(Add(Lookup(args, "x"), Lookup(args, "y")).value)
    ensures r.Success? && name == Some("minus") ==> ParseInt(r.value[0].text) == Some(Minus(Lookup(args, "x"), Lookup(args, "y")).value)
  {
    var op := if name == Some("add") then Add else Minus;
    if name != Some("add") && name != Some("minus") then Failure("Unknown tool: " + Show(name))
    else
      match op(Lookup(args, "x"), Lookup(args, "y"))
      case Failure(e) => Failure(e)
      case Success(v) =>
        ParseShowInt(v);
        Success([TextContent(ShowInt(v))])
  }
}
