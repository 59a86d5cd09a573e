/**
 * The JavaScript built-ins the editor and the generator rely on, for the inputs
 * they meet: an integer printed by a template literal, `Number(text)` on integer
 * text, `array.map(f).join("")`, `splice(i, 1)`, the `\s` character class and
 * `toLowerCase` on ASCII letters.
 */
module JsBuiltins {

  datatype Option<+T> = None | Some(value: T)

  // ---------------------------------------------------------------------------
  // Integers as text: `${n}` and `Number(text)`
  // ---------------------------------------------------------------------------

  predicate IsDigit(c: char)
  {
    '0' <= c <= '9'
  }

  predicate AllDigits(s: string)
  {
    forall i :: 0 <= i < |s| ==> IsDigit(s[i])
  }

  function DigitChar(d: nat): (c: char)
    requires d < 10
    ensures IsDigit(c) && c as int - '0' as int == d
  {
    ('0' as int + d) as char
  }

  /** Decimal digits of `n`, most significant first, with no leading zero. */
  function ShowNat(n: nat): (s: string)
    ensures |s| > 0 && AllDigits(s)
    ensures s[0] == '0' ==> n == 0
  {
    if n < 10 then [DigitChar(n)] else ShowNat(n / 10) + [DigitChar(n % 10)]
  }

  /**
   * The text a template literal prints for the integer `n`, as long as `|n|` is
   * below 10^21: from there on JavaScript prints exponent notation, and above
   * 2^53 a number no longer holds every integer.
   */
  function ShowInt(n: int): (s: string)
    ensures |s| > 0
    ensures s[0] == '-' <==> n < 0
  {
    if n < 0 then "-" + ShowNat(-n) else ShowNat(n)
  }

  /** The value of a run of decimal digits (leading zeros allowed). */
  function DigitsValue(s: string): nat
    requires AllDigits(s)
  {
    if s == [] then 0 else DigitsValue(s[..|s| - 1]) * 10 + (s[|s| - 1] as int - '0' as int)
  }

  /** Text that `Number` reads as an integer: an optional minus sign, then at least one digit. */
  predicate IsIntegerText(s: string)
  {
    (|s| > 0 && AllDigits(s)) || (|s| > 1 && s[0] == '-' && AllDigits(s[1..]))
  }

  /** `Number(s)` for integer text; `None` for the text this model does not read. */
  function ParseInt(s: string): (r: Option<int>)
    ensures r.Some? <==> IsIntegerText(s)
  {
    if |s| > 0 && AllDigits(s) then Some(DigitsValue(s) as int)
    else if |s| > 1 && s[0] == '-' && AllDigits(s[1..]) then Some(0 - DigitsValue(s[1..]) as int)
    else None
  }

  lemma {:induction false} ShowNatValue(n: nat)
    ensures DigitsValue(ShowNat(n)) == n
  {
    if n >= 10 {
      var s := ShowNat(n);
      ShowNatValue(n / 10);
      assert s[..|s| - 1] == ShowNat(n / 10);
    }
  }

  /** Reading back what was printed gives the same integer. */
  lemma ShowIntRoundTrip(n: int)
    ensures ParseInt(ShowInt(n)) == Some(n)
  {
    if n < 0 {
      assert ShowInt(n)[1..] == ShowNat(-n);
      ShowNatValue(-n);
    } else {
      ShowNatValue(n);
    }
  }

  /** Distinct integers print differently. */
  lemma ShowIntInjective(m: int, n: int)
    ensures ShowInt(m) == ShowInt(n) ==> m == n
  {
    ShowIntRoundTrip(m);
    ShowIntRoundTrip(n);
  }

  // ---------------------------------------------------------------------------
  // Arrays: `xs.map(f).join("")` and `splice(i, 1)`
  // ---------------------------------------------------------------------------

  /** The fragments `f(x)` of the elements of `xs`, in order, with nothing between them. */
  function Join<T>(f: T -> string, xs: seq<T>): (r: string)
    ensures xs == [] ==> r == ""
    ensures |xs| == 1 ==> r == f(xs[0])
  {
    if xs == [] then "" else Join(f, xs[..|xs| - 1]) + f(xs[|xs| - 1])
  }

  lemma {:induction false} JoinConcat<T>(f: T -> string, xs: seq<T>, ys: seq<T>)
    ensures Join(f, xs + ys) == Join(f, xs) + Join(f, ys)
    decreases |ys|
  {
    if ys != [] {
      var zs := ys[..|ys| - 1];
      assert (xs + ys)[..|xs + ys| - 1] == xs + zs;
      JoinConcat(f, xs, zs);
    } else {
      assert xs + ys == xs;
    }
  }

  /** The fragment of element `i` stands between those of the elements before and after it. */
  lemma JoinAt<T>(f: T -> string, xs: seq<T>, i: nat)
    requires i < |xs|
    ensures Join(f, xs) == Join(f, xs[..i]) + f(xs[i]) + Join(f, xs[i + 1..])
  {
    var front := xs[..i + 1];
    assert xs == front + xs[i + 1..];
    JoinConcat(f, front, xs[i + 1..]);
    assert front[..|front| - 1] == xs[..i] && front[|front| - 1] == xs[i];
    assert Join(f, front) == Join(f, xs[..i]) + f(xs[i]);
  }

  /** `splice(i, 1)` on a copy: the list without its element `i`. */
  function RemoveAt<T>(xs: seq<T>, i: nat): (r: seq<T>)
    requires i < |xs|
    ensures |r| == |xs| - 1
    ensures forall j :: 0 <= j < i ==> r[j] == xs[j]
    ensures forall j :: i <= j < |r| ==> r[j] == xs[j + 1]
  {
    xs[..i] + xs[i + 1..]
  }

  /** Exactly one occurrence of the removed element is gone. */
  lemma RemoveAtMultiset<T>(xs: seq<T>, i: nat)
    requires i < |xs|
    ensures multiset(RemoveAt(xs, i)) + multiset{xs[i]} == multiset(xs)
  {
    assert xs == xs[..i] + [xs[i]] + xs[i + 1..];
  }

  // ---------------------------------------------------------------------------
  // Characters: the `\s` class and ASCII `toLowerCase`
  // ---------------------------------------------------------------------------

  /** The characters a JavaScript regular expression matches with `\s`. */
  predicate IsSpace(c: char)
    ensures IsSpace(c) ==> c != '-' && !IsUpper(c)
  {
    || c == ' ' || c == '\t' || c == '\n' || c == '\U{000B}' || c == '\U{000C}' || c == '\r'
    || c == '\U{00A0}' || c == '\U{1680}' || ('\U{2000}' <= c <= '\U{200A}')
    || c == '\U{2028}' || c == '\U{2029}' || c == '\U{202F}' || c == '\U{205F}'
    || c == '\U{3000}' || c == '\U{FEFF}'
  }

  predicate IsUpper(c: char)
  {
    'A' <= c <= 'Z'
  }

  function LowerChar(c: char): (r: char)
    ensures !IsUpper(r)
    ensures IsSpace(r) == IsSpace(c)
    ensures IsUpper(c) ==> r as int == c as int + 32
    ensures !IsUpper(c) ==> r == c
  {
    if IsUpper(c) then (c as int + 32) as char else c
  }

  /** `toLowerCase` on ASCII letters; every other character is kept. */
  function Lower(s: string): (r: string)
    ensures |r| == |s|
    ensures forall i :: 0 <= i < |s| ==> r[i] == LowerChar(s[i])
  {
    if s == [] then [] else [LowerChar(s[0])] + Lower(s[1..])
  }

  lemma LowerConcat(a: string, b: string)
    ensures Lower(a + b) == Lower(a) + Lower(b)
  {
  }

  lemma LowerIdempotent(s: string)
    ensures Lower(Lower(s)) == Lower(s)
  {
  }
}
