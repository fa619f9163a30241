/** Decimal text: counters kept as digit strings, the remainder taken digit by digit, and cursors. */
module Decimal {
  import opened Types
  import opened Ordering

  predicate IsDigit(c: char) { '0' <= c <= '9' }

  function DigitValue(c: char): int { c as int - '0' as int }

  predicate AllDigits(s: string) {
    forall i :: 0 <= i < |s| ==> IsDigit(s[i])
  }

  /** The number a digit string spells. */
  function Value(s: string): (v: nat)
    requires AllDigits(s)
  {
    if s == "" then 0 else Value(s[..|s| - 1]) * 10 + DigitValue(s[|s| - 1])
  }

  predicate Canonical(s: string) {
    s != "" && AllDigits(s) && (|s| > 1 ==> s[0] != '0')
  }

  function Format(n: nat): (s: string)
    ensures Canonical(s) && Value(s) == n
  {
    if n < 10 then
      var s := [('0' as int + n) as char];
      assert s[..0] == "";
      s
    else
      var rest := Format(n / 10);
      var s := rest + [('0' as int + n % 10) as char];
      assert s[..|s| - 1] == rest;
      s
  }

  function Pow10(n: nat): (p: nat)
    ensures p >= 1
  {
    if n == 0 then 1 else 10 * Pow10(n - 1)
  }

  lemma {:induction false} ValueBounds(s: string)
    requires AllDigits(s)
    ensures Value(s) < Pow10(|s|)
    ensures s != "" && s[0] != '0' ==> Pow10(|s| - 1) <= Value(s)
  {
    if |s| > 1 {
      ValueBounds(s[..|s| - 1]);
    }
  }

  /** Equal-length digit strings compare as text the way they compare as numbers. */
  lemma {:induction false} TextOrderIsNumericOrder(a: string, b: string)
    requires AllDigits(a) && AllDigits(b) && |a| == |b|
    ensures StringLess(a, b) <==> Value(a) < Value(b)
    ensures Value(a) == Value(b) ==> a == b
    decreases |a|
  {
    if a != "" {
      var n := |a| - 1;
      TextOrderIsNumericOrder(a[..n], b[..n]);
      StringLessSnoc(a[..n], a[n], b[..n], b[n]);
      assert a == a[..n] + [a[n]] && b == b[..n] + [b[n]];
    }
  }

  lemma {:induction false} StringLessSnoc(a: string, x: char, b: string, y: char)
    requires |a| == |b|
    ensures StringLess(a + [x], b + [y]) <==> StringLess(a, b) || (a == b && x < y)
  {
    if a != "" {
      StringLessSnoc(a[1..], x, b[1..], y);
      assert (a + [x])[1..] == a[1..] + [x] && (b + [y])[1..] == b[1..] + [y];
      assert a == [a[0]] + a[1..] && b == [b[0]] + b[1..];
    }
  }

  lemma {:induction false} Pow10Monotone(a: nat, b: nat)
    requires a <= b
    ensures Pow10(a) <= Pow10(b)
  {
    if a < b { Pow10Monotone(a, b - 1); }
  }

  lemma ShorterIsSmaller(a: string, b: string)
    requires Canonical(a) && Canonical(b) && |a| < |b|
    ensures Value(a) < Value(b)
  {
    ValueBounds(a);
    ValueBounds(b);
    Pow10Monotone(|a|, |b| - 1);
  }

  /** The string tests of read_counter: digits only, no leading zero, and below the maximum as text. */
  predicate AcceptsCounter(raw: string, maximum: string) {
    && |raw| > 0
    && AllDigits(raw)
    && !(|raw| > 1 && raw[0] == '0')
    && !(|raw| > |maximum|)
    && !(|raw| == |maximum| && !StringLess(raw, maximum))
  }

  /** read_counter accepts a string iff it is the canonical spelling of a number below the maximum. */
  lemma CounterAcceptedIff(raw: string, maximum: string)
    requires Canonical(maximum)
    ensures AcceptsCounter(raw, maximum) <==> Canonical(raw) && Value(raw) < Value(maximum)
  {
    if Canonical(raw) {
      if |raw| < |maximum| {
        ShorterIsSmaller(raw, maximum);
      } else if |raw| > |maximum| {
        ShorterIsSmaller(maximum, raw);
      } else {
        TextOrderIsNumericOrder(raw, maximum);
      }
    }
  }

  /** INCR on a counter string. */
  function Increment(raw: string): (r: string)
    requires Canonical(raw)
    ensures Canonical(r) && Value(r) == Value(raw) + 1
  {
    Format(Value(raw) + 1)
  }

  /** decimal_mod: the remainder of a decimal string, one digit at a time. Every intermediate stays below
      ten times the divisor, so a double holds it exactly when the divisor is a list length. */
  method DecimalMod(value: string, divisor: nat) returns (remainder: nat)
    requires AllDigits(value) && divisor > 0
    ensures remainder == Value(value) % divisor
  {
    remainder := 0;
    assert value[..0] == "";
    for index := 0 to |value|
      invariant remainder == Value(value[..index]) % divisor
    {
      var digit := DigitValue(value[index]);
      assert remainder * 10 + digit < 10 * divisor;
      assert value[..index + 1][..index] == value[..index];
      ModStep(Value(value[..index]), digit, divisor);
      remainder := (remainder * 10 + digit) % divisor;
    }
    assert value[..|value|] == value;
  }

  lemma ModStep(v: nat, digit: nat, divisor: nat)
    requires divisor > 0
    ensures (v % divisor * 10 + digit) % divisor == (v * 10 + digit) % divisor
  {
    var q, r := v / divisor, v % divisor;
    assert v * 10 + digit == (q * 10) * divisor + (r * 10 + digit) by {
      assert v == q * divisor + r;
      assert (q * divisor) * 10 == (q * 10) * divisor;
    }
    ModAddMultiple(q * 10, r * 10 + digit, divisor);
  }

  lemma {:induction false} ModAddMultiple(k: nat, x: nat, d: nat)
    requires d > 0
    ensures (k * d + x) % d == x % d
  {
    if k > 0 {
      ModAddMultiple(k - 1, x, d);
      assert k * d + x == (k - 1) * d + x + d;
      ModAddDivisor((k - 1) * d + x, d);
    }
  }

  lemma ModAddDivisor(a: nat, d: nat)
    requires d > 0
    ensures (a + d) % d == a % d
  {
    assert a == a / d * d + a % d;
    assert a + d == (a / d + 1) * d + a % d;
    DivisionUnique(a + d, d, a / d + 1, a % d);
  }

  lemma {:induction false} MultipleAtLeast(k: nat, d: nat)
    requires k > 0
    ensures k * d >= d
  {
    if k > 1 { MultipleAtLeast(k - 1, d); assert k * d == (k - 1) * d + d; }
  }

  lemma QuotientsAgree(q: int, r: int, q': int, r': int, d: int)
    requires d > 0 && 0 <= r < d && 0 <= r' < d && q * d + r == q' * d + r'
    ensures q == q' && r == r'
  {
    assert (q - q') * d == q * d - q' * d;
    assert (q' - q) * d == q' * d - q * d;
    if q > q' {
      MultipleAtLeast(q - q', d);
    } else if q < q' {
      MultipleAtLeast(q' - q, d);
    }
  }

  lemma DivisionUnique(a: int, d: int, q: int, r: int)
    requires d > 0 && 0 <= r < d && a == q * d + r
    ensures a / d == q && a % d == r
  {
    QuotientsAgree(a / d, a % d, q, r, d);
  }

  /** The zero-based position a round-robin counter selects k picks after it stood at start. */
  function PickIndex(start: nat, k: nat, n: nat): (index: nat)
    requires n > 0
    ensures index < n
    ensures start + k < n ==> index == start + k
  {
    (start + k) % n
  }

  /** Counter values that follow one another pick every index of a list of n once in n picks. */
  lemma ConsecutivePicksCoverOnce(start: nat, n: nat, index: nat)
    requires index < n
    ensures exists k: nat :: k < n && PickIndex(start, k, n) == index
    ensures forall j: nat, k: nat ::
              j < n && k < n && PickIndex(start, j, n) == index && PickIndex(start, k, n) == index ==> j == k
  {
    var q, r := start / n, start % n;
    var k: nat := if r <= index then index - r else n + index - r;
    var quotient := if r <= index then q else q + 1;
    assert start == q * n + r;
    assert (q + 1) * n == q * n + n;
    DivisionUnique(start + k, n, quotient, index);
    assert PickIndex(start, k, n) == index;
    forall j: nat, k: nat | j < n && k < n && PickIndex(start, j, n) == index && PickIndex(start, k, n) == index
      ensures j == k
    {
      SameRemainder(start + j, start + k, n);
    }
  }

  lemma SameRemainder(a: nat, b: nat, n: nat)
    requires n > 0 && a % n == b % n && a < b + n && b < a + n
    ensures a == b
  {
    var p, q := a / n, b / n;
    assert a == p * n + a % n && b == q * n + b % n;
    assert (p - q) * n == p * n - q * n;
    assert (q - p) * n == q * n - p * n;
    if p > q {
      MultipleAtLeast(p - q, n);
    } else if p < q {
      MultipleAtLeast(q - p, n);
    }
  }

  // ------------------------------------------------------------------------------------------
  // Cursors.

  function FormatInt(n: int): string {
    if n < 0 then "-" + Format(-n) else Format(n)
  }

  /** strconv.ParseInt in base 10 for 64 bits: an optional sign, then digits, then the range test. */
  function ParseInt(s: string): Option<int> {
    var negative := |s| > 0 && s[0] == '-';
    var digits := if |s| > 0 && (s[0] == '-' || s[0] == '+') then s[1..] else s;
    if digits == "" || !AllDigits(digits) then None
    else
      var magnitude: int := Value(digits);
      var v := if negative then -magnitude else magnitude;
      if -MAX_INT64 - 1 <= v <= MAX_INT64 then Some(v) else None
  }

  datatype Cursor = Cursor(score: int, key: string)

  function FormatCursor(c: Cursor): string { FormatInt(c.score) + ":" + c.key }

  function IndexOf(s: string, c: char): (i: nat)
    ensures i <= |s|
    ensures forall j :: 0 <= j < i ==> s[j] != c
    ensures i < |s| ==> s[i] == c
  {
    if s == "" then 0 else if s[0] == c then 0 else IndexOf(s[1..], c) + 1
  }

  function ParseCursor(s: string): Option<Cursor> {
    var i := IndexOf(s, ':');
    if i == |s| || i + 1 == |s| then None
    else match ParseInt(s[..i])
      case None => None
      case Some(score) => Some(Cursor(score, s[i + 1..]))
  }

  lemma ParseFormatInt(n: int)
    requires -MAX_INT64 - 1 <= n <= MAX_INT64
    ensures ParseInt(FormatInt(n)) == Some(n)
  {
    var f := Format(if n < 0 then -n else n);
    assert ("-" + f)[1..] == f;
  }

  /** parseCursor undoes formatCursor for non-empty keys, whatever characters the key holds. */
  lemma CursorRoundTrip(c: Cursor)
    requires -MAX_INT64 - 1 <= c.score <= MAX_INT64
    ensures ParseCursor(FormatCursor(c)) == if c.key == "" then None else Some(c)
  {
    ParseFormatInt(c.score);
    var number := FormatInt(c.score);
    var s := FormatCursor(c);
    assert forall j :: 0 <= j < |number| ==> s[j] == number[j] && number[j] != ':';
    assert s[|number|] == ':';
    assert IndexOf(s, ':') == |number|;
    assert s[..|number|] == number;
    assert s[|number| + 1..] == c.key;
  }
}
