/** Python's `str()` of a decoded JSON scalar and the f-strings the handlers
    build. An f-string is kept as a template (`Text`): literal pieces and
    interpolated JSON values; `Render` flattens it to the Python string. */
module PyText {
  import opened Py
  import opened Json

  predicate IsDigit(c: char) {
    '0' <= c <= '9'
  }

  function DigitValue(c: char): nat
    requires IsDigit(c)
  {
    c as int - '0' as int
  }

  function DigitChar(d: nat): (c: char)
    requires d < 10
    ensures IsDigit(c) && DigitValue(c) == d
  {
    ('0' as int + d) as char
  }

  predicate AllDigits(s: string) {
    forall i :: 0 <= i < |s| ==> IsDigit(s[i])
  }

  /** Decimal digits of a natural number, most significant first. */
  function Digits(n: nat): (s: string)
    ensures |s| > 0 && AllDigits(s)
    ensures s[0] == '0' <==> n == 0
    ensures n == 0 ==> s == "0"
    decreases n
  {
    if n < 10 then [DigitChar(n)]
    else Digits(n / 10) + [DigitChar(n % 10)]
  }

  /** Reads a run of decimal digits back as a number. */
  function ParseDigits(s: string): nat
    requires AllDigits(s)
    decreases |s|
  {
    if |s| == 0 then 0
    else ParseDigits(s[..|s| - 1]) * 10 + DigitValue(s[|s| - 1])
  }

  lemma {:induction false} DigitsRoundTrip(n: nat)
    ensures ParseDigits(Digits(n)) == n
    decreases n
  {
    if n >= 10 {
      var s := Digits(n);
      assert s[..|s| - 1] == Digits(n / 10);
      DigitsRoundTrip(n / 10);
    }
  }

  /** Python's `str(n)` for an int: optional minus sign, then digits without
      leading zeros. */
  function Decimal(n: int): (s: string)
    ensures |s| > 0
    ensures s[0] == '-' <==> n < 0
    ensures n >= 0 ==> AllDigits(s)
    ensures n < 0 ==> AllDigits(s[1..])
  {
    if n < 0 then
      var d := Digits(-n);
      assert ("-" + d)[1..] == d;
      "-" + d
    else Digits(n)
  }

  function ParseDecimal(s: string): int
    requires |s| > 0
    requires s[0] == '-' ==> AllDigits(s[1..])
    requires s[0] != '-' ==> AllDigits(s)
  {
    if s[0] == '-' then 0 - ParseDigits(s[1..]) else ParseDigits(s)
  }

  lemma DecimalRoundTrip(n: int)
    ensures ParseDecimal(Decimal(n)) == n
  {
    if n < 0 {
      assert Decimal(n)[1..] == Digits(-n);
      DigitsRoundTrip(-n);
    } else {
      DigitsRoundTrip(n);
    }
  }

  /** Python's `str(v)` for a JSON scalar. Containers are rendered with
      `repr` of their items, which this model does not spell out. */
  function PyStr(v: Json): (r: Option<string>)
    ensures r.Some? <==> !v.JArray? && !v.JObject?
    ensures v.JString? ==> r == Some(v.s)
  {
    match v
    case JNull => Some("None")
    case JBool(b) => Some(if b then "True" else "False")
    case JInt(n) => Some(Decimal(n))
    case JString(s) => Some(s)
    case _ => None
  }

  /** `str()` of a JSON int reads back as the same int. */
  lemma PyStrIntRoundTrip(n: int)
    ensures PyStr(JInt(n)).Some?
    ensures var s := PyStr(JInt(n)).value; |s| > 0 && ParseDecimal(s) == n
  {
    DecimalRoundTrip(n);
  }

  /** One piece of an f-string: literal text or an interpolated `{value}`. */
  datatype Piece = Lit(s: string) | Interp(v: Json)

  type Text = seq<Piece>

  function RenderPiece(p: Piece): Option<string> {
    match p
    case Lit(s) => Some(s)
    case Interp(v) => PyStr(v)
  }

  function Concat(a: Option<string>, b: Option<string>): Option<string> {
    if a.Some? && b.Some? then Some(a.value + b.value) else None
  }

  /** The string Python builds from the f-string; absent only when a hole
      holds an array or object. */
  function Render(t: Text): (r: Option<string>)
    ensures r.Some? <==> forall i :: 0 <= i < |t| ==> RenderPiece(t[i]).Some?
    decreases |t|
  {
    if |t| == 0 then Some("")
    else
      assert forall i :: 1 <= i < |t| ==> t[1..][i - 1] == t[i];
      Concat(RenderPiece(t[0]), Render(t[1..]))
  }

  /** Rendering distributes over concatenation of templates. */
  lemma {:induction false} RenderAppend(a: Text, b: Text)
    ensures Render(a + b) == Concat(Render(a), Render(b))
    decreases |a|
  {
    if |a| == 0 {
      assert a + b == b;
      if Render(b).Some? {
        assert "" + Render(b).value == Render(b).value;
      }
    } else {
      assert (a + b)[0] == a[0];
      assert (a + b)[1..] == a[1..] + b;
      RenderAppend(a[1..], b);
      var x, y, z := RenderPiece(a[0]), Render(a[1..]), Render(b);
      if x.Some? && y.Some? && z.Some? {
        assert x.value + (y.value + z.value) == (x.value + y.value) + z.value;
      }
    }
  }

  /** Rendering a template one piece longer appends that piece's text, so a
      template renders left to right exactly as Python joins an f-string. */
  lemma RenderPrefix(t: Text, k: nat)
    requires k < |t|
    ensures Render(t[..k + 1]) == Concat(Render(t[..k]), RenderPiece(t[k]))
  {
    var p := t[k];
    assert t[..k + 1] == t[..k] + [p];
    RenderAppend(t[..k], [p]);
    assert [p][1..] == [];
    if RenderPiece(p).Some? {
      assert RenderPiece(p).value + "" == RenderPiece(p).value;
    }
  }
}
