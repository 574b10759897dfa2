/** The few pieces of JavaScript value semantics the chat route relies on:
    `||` on optional strings, number-to-text rendering of non-negative integers,
    `Math.round`, `Number.prototype.toFixed(2)`, and `Array.prototype.join` /
    `String.prototype.split` on a one-character separator. */
module JsText {

  datatype Option<T> = None | Some(value: T)

  /** JavaScript truthiness of a string-valued property that may be missing:
      `undefined` and the empty string are falsy. */
  predicate Truthy(v: Option<string>) {
    v.Some? && v.value != ""
  }

  /** `v || fallback` for a property that is a string or `undefined`. */
  function OrElse(v: Option<string>, fallback: string): (s: string)
    // the result is one of the two operands ...
    ensures s == fallback || (v.Some? && s == v.value)
    // a truthy left operand wins; otherwise the fallback is returned
    ensures Truthy(v) ==> s == v.value
    ensures !Truthy(v) ==> s == fallback
    // ... and it is truthy exactly when either operand is
    ensures s != "" <==> Truthy(v) || fallback != ""
  {
    if Truthy(v) then v.value else fallback
  }

  /** `${v}` in a template literal: a missing property renders as "undefined". */
  function TemplateText(v: Option<string>): (s: string)
  {
    match v
    case Some(t) => t
    case None => "undefined"
  }

  // ---------------------------------------------------------------------------
  // Decimal digits

  predicate IsDigit(c: char) {
    '0' <= c <= '9'
  }

  predicate AllDigits(s: string) {
    forall i :: 0 <= i < |s| ==> IsDigit(s[i])
  }

  function DigitChar(d: nat): (c: char)
    requires d < 10
    ensures IsDigit(c) && c as int - '0' as int == d
  {
    ('0' as int + d) as char
  }

  /** The value of a string of decimal digits (the inverse of NatText). */
  function DigitsValue(s: string): (n: nat)
    requires AllDigits(s)
  {
    if s == [] then 0
    else DigitsValue(s[..|s| - 1]) * 10 + (s[|s| - 1] as int - '0' as int)
  }

  /** How JavaScript renders a non-negative integral Number below 1e21:
      its decimal digits, without leading zeros. */
  function NatText(n: nat): (s: string)
    ensures |s| >= 1 && AllDigits(s)
    ensures |s| > 1 ==> s[0] != '0'
  {
    if n < 10 then [DigitChar(n)] else NatText(n / 10) + [DigitChar(n % 10)]
  }

  /** Reading the digits back gives the number that was rendered. */
  lemma {:induction false} NatTextRoundTrip(n: nat)
    ensures DigitsValue(NatText(n)) == n
  {
    if n >= 10 {
      var s := NatText(n);
      assert s[..|s| - 1] == NatText(n / 10);
      NatTextRoundTrip(n / 10);
    }
  }

  /** Two numbers render alike only when they are equal. */
  lemma NatTextInjective(m: nat, n: nat)
    requires NatText(m) == NatText(n)
    ensures m == n
  {
    NatTextRoundTrip(m);
    NatTextRoundTrip(n);
  }

  // ---------------------------------------------------------------------------
  // Math.round and toFixed(2), on exact reals

  /** `Math.round(x)`: the integer closest to x, halves going up. */
  function Round(x: real): (r: int)
    ensures r as real - 0.5 <= x < r as real + 0.5
  {
    (x + 0.5).Floor
  }

  /** Math.round's result is the only integer within half a unit of x
      (counting the lower half-way point, not the upper one). */
  lemma RoundUnique(x: real, m: int)
    requires m as real - 0.5 <= x < m as real + 0.5
    ensures m == Round(x)
  {
    var r := Round(x);
    assert r as real < m as real + 1.0;
    assert m as real < r as real + 1.0;
  }

  /** `x.toFixed(2)` for a non-negative x below 1e21: the integer n that makes
      n / 100 closest to x (the larger one on a tie), written with a decimal point
      before its last two digits. */
  function ToFixed2(x: real): (s: string)
    requires x >= 0.0
    ensures |s| >= 4 && s[|s| - 3] == '.'
    ensures AllDigits(s[..|s| - 3]) && AllDigits(s[|s| - 2..])
    // the integer part has no leading zero
    ensures |s| > 4 ==> s[0] != '0'
  {
    var n := Round(x * 100.0);
    var head := NatText(n / 100);
    var s := head + "." + [DigitChar(n % 100 / 10), DigitChar(n % 10)];
    assert s[..|head|] == head;
    s
  }

  /** The value a reader takes from a ToFixed2 text, in hundredths. */
  function FixedValue(s: string): (n: nat)
    requires |s| >= 4 && s[|s| - 3] == '.'
    requires AllDigits(s[..|s| - 3]) && AllDigits(s[|s| - 2..])
  {
    DigitsValue(s[..|s| - 3]) * 100 + DigitsValue(s[|s| - 2..])
  }

  /** The text toFixed(2) produces reads back as the hundredths closest to x. */
  lemma ToFixed2Reads(x: real)
    requires x >= 0.0
    ensures var s := ToFixed2(x);
      var n := FixedValue(s);
      n as real - 0.5 <= x * 100.0 < n as real + 0.5
  {
    var n := Round(x * 100.0);
    var s := ToFixed2(x);
    var head := NatText(n / 100);
    assert s[..|s| - 3] == head;
    NatTextRoundTrip(n / 100);
    var tail := s[|s| - 2..];
    assert tail == [DigitChar(n % 100 / 10), DigitChar(n % 10)];
    assert tail[..1] == [DigitChar(n % 100 / 10)];
    assert tail[..1][..0] == [];
    assert DigitsValue(tail[..1]) == n % 100 / 10;
    assert n % 100 % 10 == n % 10;
    assert DigitsValue(tail) == n % 100;
  }

  // ---------------------------------------------------------------------------
  // Array.prototype.join and String.prototype.split on one separator character

  /** `parts.join(sep)`. */
  function Join(parts: seq<string>, sep: char): (s: string)
  {
    if |parts| == 0 then ""
    else if |parts| == 1 then parts[0]
    else parts[0] + [sep] + Join(parts[1..], sep)
  }

  /** `s.split(sep)`: the pieces between separators; always at least one. */
  function Split(s: string, sep: char): (parts: seq<string>)
    ensures |parts| >= 1
  {
    if s == [] then [""]
    else
      var rest := Split(s[1..], sep);
      if s[0] == sep then [""] + rest
      else [[s[0]] + rest[0]] + rest[1..]
  }

  /** A piece free of the separator splits to itself. */
  lemma {:induction false} SplitPlain(a: string, sep: char)
    requires sep !in a
    ensures Split(a, sep) == [a]
  {
    if a != [] {
      SplitPlain(a[1..], sep);
      assert [a[0]] + a[1..] == a;
    }
  }

  /** Splitting at the first separator peels off the piece before it. */
  lemma {:induction false} SplitFirst(a: string, sep: char, b: string)
    requires sep !in a
    ensures Split(a + [sep] + b, sep) == [a] + Split(b, sep)
  {
    if a == [] {
      assert a + [sep] + b == [sep] + b;
      assert ([sep] + b)[1..] == b;
    } else {
      var s := a + [sep] + b;
      assert s[1..] == a[1..] + [sep] + b;
      SplitFirst(a[1..], sep, b);
      assert [a[0]] + a[1..] == a;
    }
  }

  /** Joining pieces that do not contain the separator and splitting again gives
      the pieces back, in order. */
  lemma {:induction false} SplitJoin(parts: seq<string>, sep: char)
    requires |parts| >= 1
    requires forall i :: 0 <= i < |parts| ==> sep !in parts[i]
    ensures Split(Join(parts, sep), sep) == parts
  {
    if |parts| == 1 {
      SplitPlain(parts[0], sep);
    } else {
      SplitJoin(parts[1..], sep);
      SplitFirst(parts[0], sep, Join(parts[1..], sep));
      assert [parts[0]] + parts[1..] == parts;
    }
  }

  /** A join of n separator-free pieces holds exactly n - 1 separators. */
  lemma {:induction false} JoinSeparators(parts: seq<string>, sep: char)
    requires |parts| >= 1
    requires forall i :: 0 <= i < |parts| ==> sep !in parts[i]
    ensures multiset(Join(parts, sep))[sep] == |parts| - 1
  {
    if |parts| > 1 {
      JoinSeparators(parts[1..], sep);
      var rest := Join(parts[1..], sep);
      assert Join(parts, sep) == parts[0] + [sep] + rest;
      assert multiset(parts[0] + [sep] + rest) == multiset(parts[0]) + multiset{sep} + multiset(rest);
      assert multiset(parts[0])[sep] == 0;
    } else {
      assert multiset(parts[0])[sep] == 0;
    }
  }
}
