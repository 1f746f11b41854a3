/** JavaScript numbers as the client's screens use them: a finite value or
    `NaN`, `Number(...)` on the values the server sends, truthiness and the
    `x || 0` idiom. Values are exact reals: floating-point rounding and the
    infinities are not modelled. */
module JsNumber {
  import opened Wrappers
  import opened Text
  import opened Json

  datatype Num = Num(r: real) | NaN

  const NumZero := Num(0.0)

  /** `a + b` on numbers: `NaN` is absorbing. */
  function Plus(a: Num, b: Num): Num {
    if a.Num? && b.Num? then Num(a.r + b.r) else NaN
  }

  /** `a * b` on numbers: `NaN` is absorbing. */
  function Times(a: Num, b: Num): Num {
    if a.Num? && b.Num? then Num(a.r * b.r) else NaN
  }

  /** `NaN` and `0` are falsy, every other number truthy. */
  predicate NumTruthy(n: Num) {
    n.Num? && n.r != 0.0
  }

  /** `n || 0`: never `NaN`, and the number itself whenever it is truthy. */
  function OrZero(n: Num): (r: Num)
    ensures r.Num?
    ensures n.Num? ==> r == n
  {
    if NumTruthy(n) then n else NumZero
  }

  function Pow10(n: nat): (r: real)
    ensures r >= 1.0
  {
    if n == 0 then 1.0 else 10.0 * Pow10(n - 1)
  }

  /** The end of the run of digits starting at `i`. */
  function DigitsEnd(s: string, i: nat): (j: nat)
    requires i <= |s|
    ensures i <= j <= |s|
    ensures forall k | i <= k < j :: IsDigit(s[k])
    ensures j == |s| || !IsDigit(s[j])
    decreases |s| - i
  {
    if i < |s| && IsDigit(s[i]) then DigitsEnd(s, i + 1) else i
  }

  /** Digits, an optional fraction `.` digits and an optional exponent. */
  function UnsignedValue(s: string): Option<real> {
    var i := DigitsEnd(s, 0);
    if i == 0 then None
    else
      var whole := DigitsValue(s[..i]) as real;
      if i < |s| && s[i] == '.' then
        var j := DigitsEnd(s, i + 1);
        if j == i + 1 then None
        else Scaled(WithFraction(whole, s[i + 1..j]), s[j..])
      else Scaled(whole, s[i..])
  }

  /** `whole` followed by the fraction digits after a point. */
  function WithFraction(whole: real, digits: string): real
    requires forall k | 0 <= k < |digits| :: IsDigit(digits[k])
  {
    whole + DigitsValue(digits) as real / Pow10(|digits|)
  }

  /** `m` followed by `rest`: nothing, or an exponent `[eE][+-]?digits`. */
  function Scaled(m: real, rest: string): Option<real> {
    if rest == [] then Some(m)
    else if rest[0] == 'e' || rest[0] == 'E' then
      var t := rest[1..];
      var ds := if |t| > 0 && (t[0] == '-' || t[0] == '+') then t[1..] else t;
      if |ds| > 0 && DigitsEnd(ds, 0) == |ds| then
        var p := Pow10(DigitsValue(ds));
        Some(if |t| > 0 && t[0] == '-' then m / p else m * p)
      else None
    else None
  }

  /** A decimal literal with an optional sign. */
  function DecimalValue(s: string): Option<real> {
    if |s| > 0 && (s[0] == '-' || s[0] == '+') then
      match UnsignedValue(s[1..])
      case None => None
      case Some(v) => Some(if s[0] == '-' then -v else v)
    else UnsignedValue(s)
  }

  /** `Number(s)` for a string: surrounding whitespace is ignored, blank
      text is `0`, a decimal literal is its value, anything else `NaN`. */
  function StringToNumber(s: string): Num {
    var t := Trim(s);
    if t == [] then NumZero
    else
      match DecimalValue(t)
      case Some(v) => Num(v)
      case None => NaN
  }

  /** `Number(v)`; `None` is `undefined`. An array converts through its
      `join(",")`, an object through `"[object Object]"`. */
  function NumberOf(v: Option<Json>): Num {
    match v
    case None => NaN
    case Some(JNull) => NumZero
    case Some(JBool(b)) => Num(if b then 1.0 else 0.0)
    case Some(JNum(t)) => (match DecimalValue(t) case Some(x) => Num(x) case None => NaN)
    case Some(JStr(s)) => StringToNumber(s)
    case Some(JArr(items)) => StringToNumber(JoinElements(items))
    case Some(JObj(_)) => NaN
  }

  /** `Number(v || 0)`: a missing or falsy value reads as `0`. */
  function NumberOrZero(v: Option<Json>): (n: Num)
    ensures !Truthy(v) ==> n == NumZero
  {
    if Truthy(v) then NumberOf(v) else NumZero
  }

  /** The run of digits from `i` ends exactly where the first non-digit
      stands. */
  lemma DigitsEndAt(s: string, i: nat, j: nat)
    requires i <= j <= |s|
    requires forall k | i <= k < j :: IsDigit(s[k])
    requires j == |s| || !IsDigit(s[j])
    ensures DigitsEnd(s, i) == j
  {
  }

  /** `Number` reads a string of digits as its value. */
  lemma DigitsNumber(n: nat)
    ensures UnsignedValue(ShowNat(n)) == Some(n as real)
  {
    var d := ShowNat(n);
    DigitsEndAt(d, 0, |d|);
    assert d[..|d|] == d;
    ShowNatValue(n);
  }

  /** `Number` reads digits, a point and more digits as the whole part
      plus the fraction. */
  lemma FractionValue(d: string, fr: string)
    requires |d| >= 1 && forall k | 0 <= k < |d| :: IsDigit(d[k])
    requires |fr| >= 1 && forall k | 0 <= k < |fr| :: IsDigit(fr[k])
    ensures UnsignedValue(d + "." + fr) == Some(WithFraction(DigitsValue(d) as real, fr))
  {
    var u := d + "." + fr;
    FractionRuns(d, fr);
    var x := WithFraction(DigitsValue(d) as real, fr);
    assert Scaled(x, u[|u|..]) == Some(x) by {
      assert u[|u|..] == [];
    }
  }

  /** Where the two runs of digits of `d.fr` start and end. */
  lemma FractionRuns(d: string, fr: string)
    requires |d| >= 1 && forall k | 0 <= k < |d| :: IsDigit(d[k])
    requires |fr| >= 1 && forall k | 0 <= k < |fr| :: IsDigit(fr[k])
    ensures var u := d + "." + fr;
      DigitsEnd(u, 0) == |d| && u[..|d|] == d && u[|d|] == '.'
      && DigitsEnd(u, |d| + 1) == |u| && u[|d| + 1..|u|] == fr
  {
    var u := d + "." + fr;
    var i, j := |d|, |u|;
    assert u[i] == '.';
    DigitsEndAt(u, 0, i);
    assert u[..i] == d;
    assert forall k | i + 1 <= k < j :: u[k] == fr[k - i - 1];
    DigitsEndAt(u, i + 1, j);
    assert u[i + 1..j] == fr;
  }

  /** A literal starting with a digit reads the same with or without a
      leading `-`, up to the sign. */
  lemma SignedValue(u: string, v: real)
    requires u != [] && IsDigit(u[0]) && UnsignedValue(u) == Some(v)
    ensures DecimalValue(u) == Some(v) && DecimalValue("-" + u) == Some(-v)
  {
    assert ("-" + u)[1..] == u;
  }

  /** An integer literal reads as its value, and is falsy exactly when it
      is 0. */
  lemma IntNumber(i: int)
    ensures NumberOf(Some(JNum(ShowInt(i)))) == Num(i as real)
    ensures Truthy(Some(JNum(ShowInt(i)))) <==> i != 0
  {
    var n := if i < 0 then -i else i;
    var d := ShowNat(n);
    DigitsNumber(n);
    SignedValue(d, n as real);
    if i < 0 {
      assert ShowInt(i) == "-" + d;
    }
    assert IsZeroLiteral(d) <==> n == 0 by {
      if d[0] == '0' {
        ShowNatValue(n);
      }
    }
  }

  /** Text with no whitespace at either end is read as it stands. */
  lemma PlainNumber(s: string, v: real)
    requires s != [] && !IsJsSpace(s[0]) && !IsJsSpace(s[|s| - 1])
    requires DecimalValue(s) == Some(v)
    ensures StringToNumber(s) == Num(v)
  {
    TrimPlain(s);
  }

  /** `NaN` absorbs; otherwise the sum of the values. */
  lemma PlusAssoc(a: Num, b: Num, c: Num)
    ensures Plus(Plus(a, b), c) == Plus(a, Plus(b, c))
  {
  }

  /** A string that is not a number: one starting with a letter. */
  lemma NotANumber(s: string)
    requires |s| > 0 && ('a' <= s[0] <= 'z' || 'A' <= s[0] <= 'Z')
    ensures StringToNumber(s) == NaN
  {
    var t := Trim(s);
    assert !IsJsSpace(s[0]);
    assert SpaceEnd(s, 0) == 0;
    assert t[0] == s[0];
    assert DigitsEnd(t, 0) == 0;
  }

  // ---------------------------------------------------------------------
  // Reducing a list of values
  // ---------------------------------------------------------------------

  /** `items.reduce((acc, item) => acc + term(item), 0)`: `NaN` exactly
      when some term is `NaN`. */
  function Sum(items: seq<Json>, term: Json -> Num): (r: Num)
    ensures r.Num? <==> forall i | 0 <= i < |items| :: term(items[i]).Num?
  {
    if items == [] then NumZero
    else
      var init := items[..|items| - 1];
      assert forall i | 0 <= i < |init| :: init[i] == items[i];
      Plus(Sum(init, term), term(items[|items| - 1]))
  }

  /** A reduce over two lists run one after the other is the sum of the
      two reduces. */
  lemma {:induction false} SumAppend(a: seq<Json>, b: seq<Json>, term: Json -> Num)
    ensures Sum(a + b, term) == Plus(Sum(a, term), Sum(b, term))
    decreases |b|
  {
    if b == [] {
      assert a + b == a;
    } else {
      var init := b[..|b| - 1];
      assert (a + b)[..|a + b| - 1] == a + init;
      SumAppend(a, init, term);
      PlusAssoc(Sum(a, term), Sum(init, term), term(b[|b| - 1]));
    }
  }

  /** Two terms that agree on every line give the same reduce. */
  lemma {:induction false} SumSameTerms(items: seq<Json>, t: Json -> Num, u: Json -> Num)
    requires forall i | 0 <= i < |items| :: t(items[i]) == u(items[i])
    ensures Sum(items, t) == Sum(items, u)
  {
    if items != [] {
      var init := items[..|items| - 1];
      assert forall i | 0 <= i < |init| :: init[i] == items[i];
      SumSameTerms(init, t, u);
    }
  }

  /** A reduce of non-negative terms is a non-negative number. */
  lemma {:induction false} SumNonNegative(items: seq<Json>, term: Json -> Num)
    requires forall i | 0 <= i < |items| :: term(items[i]).Num? && term(items[i]).r >= 0.0
    ensures Sum(items, term).Num? && Sum(items, term).r >= 0.0
  {
    if items != [] {
      var init := items[..|items| - 1];
      assert forall i | 0 <= i < |init| :: init[i] == items[i];
      SumNonNegative(init, term);
    }
  }
}
