/**
 The started_at column: an instant written as RFC3339Nano text in UTC, whose fraction loses its
 trailing zeros, and compared as text. Instants are nanoseconds since the epoch; years have four digits.
 */
module LogTime {

  const NANOS := 1_000_000_000
  const DAY_SECONDS := 86_400

  type Instant = int

  function Pow10(k: nat): (p: nat)
    ensures p >= 1
  {
    if k == 0 then 1 else 10 * Pow10(k - 1)
  }

  /** The digits of the fraction f / 10^k without trailing zeros, then the 'Z' that ends the text. */
  function Digits(f: nat, k: nat): seq<char>
    requires f < Pow10(k)
    decreases k
  {
    if k == 0 || f == 0 then ['Z']
    else
      DigitBound(f, Pow10(k - 1));
      [('0' as int + f / Pow10(k - 1)) as char] + Digits(f % Pow10(k - 1), k - 1)
  }

  lemma DigitBound(f: nat, p: nat)
    requires p >= 1 && f < 10 * p
    ensures 0 <= f / p <= 9 && f % p < p && f == p * (f / p) + f % p
  {
    var d := f / p;
    assert f == p * d + f % p;
    assert d >= 10 ==> p * d >= p * 10;
  }

  /** What follows the seconds in the text of an instant. */
  function Fraction(f: nat): seq<char>
    requires f < NANOS
  {
    assert Pow10(9) == NANOS by { assert Pow10(3) == 1000; assert Pow10(6) == 1_000_000; }
    if f == 0 then ['Z'] else ['.'] + Digits(f, 9)
  }

  /** Byte order of text. */
  predicate Below(a: seq<char>, b: seq<char>) {
    if b == [] then false
    else if a == [] then true
    else a[0] < b[0] || (a[0] == b[0] && Below(a[1..], b[1..]))
  }

  /** Texts up to the seconds have one width, so they order as the seconds do. */
  predicate TextLess(a: Instant, b: Instant) {
    a / NANOS < b / NANOS || (a / NANOS == b / NANOS && Below(Fraction(a % NANOS), Fraction(b % NANOS)))
  }

  /** The digits of f / 10^k, without trailing zeros, are a proper prefix of those of g / 10^k. */
  predicate Prefixes(f: nat, g: nat, k: nat)
    decreases k
  {
    k > 0 && g != 0 && (f == 0 || (f / Pow10(k - 1) == g / Pow10(k - 1) && Prefixes(f % Pow10(k - 1), g % Pow10(k - 1), k - 1)))
  }

  lemma DivideInOrder(f: nat, g: nat, p: nat)
    requires p >= 1 && f < g
    ensures f / p <= g / p
    ensures f / p == g / p ==> f % p < g % p
  {
    assert f == p * (f / p) + f % p && g == p * (g / p) + g % p;
    var x, y := f / p, g / p;
    assert x >= y + 1 ==> p * x >= p * (y + 1);
  }

  /** Text order is numeric order, except that a fraction sorts after those it is a prefix of. */
  lemma {:induction false} DigitsOrder(f: nat, g: nat, k: nat)
    requires f < g < Pow10(k)
    ensures Below(Digits(f, k), Digits(g, k)) <==> !Prefixes(f, g, k)
    ensures Below(Digits(g, k), Digits(f, k)) <==> Prefixes(f, g, k)
    decreases k
  {
    var p := Pow10(k - 1);
    DigitBound(f, p);
    DigitBound(g, p);
    DivideInOrder(f, g, p);
    if f != 0 && f / p == g / p {
      DigitsOrder(f % p, g % p, k - 1);
    }
  }

  /** Same second, and the earlier fraction's digits are a proper prefix of the later one's. */
  predicate Hides(a: Instant, b: Instant) { a / NANOS == b / NANOS && Prefixes(a % NANOS, b % NANOS, 9) }

  lemma EarlierInText(a: Instant, b: Instant)
    requires a < b
    ensures TextLess(a, b) <==> !Hides(a, b)
    ensures TextLess(b, a) <==> Hides(a, b)
  {
    assert Pow10(9) == NANOS by { assert Pow10(3) == 1000; assert Pow10(6) == 1_000_000; }
    SecondsInOrder(a, b);
    if a / NANOS == b / NANOS {
      var f, g := a % NANOS, b % NANOS;
      DigitsOrder(f, g, 9);
      assert ['.'] + Digits(g, 9) != [] && (['.'] + Digits(g, 9))[1..] == Digits(g, 9);
      if f != 0 { assert (['.'] + Digits(f, 9))[1..] == Digits(f, 9); }
    }
  }

  /** Text order is time order exactly when the earlier instant does not hide the later one. */
  lemma TextLessIff(a: Instant, b: Instant)
    ensures TextLess(a, b) <==> (a < b && !Hides(a, b)) || (b < a && Hides(b, a))
  {
    if a < b { EarlierInText(a, b); }
    else if b < a { EarlierInText(b, a); }
    else { BelowTotal(Fraction(a % NANOS), Fraction(b % NANOS)); }
  }

  lemma SecondsInOrder(a: Instant, b: Instant)
    requires a < b
    ensures a / NANOS <= b / NANOS
    ensures a / NANOS == b / NANOS ==> a % NANOS < b % NANOS
  {
  }

  /** A request started half a second after midnight counts as started before it. */
  lemma TextOrderIsNotTimeOrder()
    ensures TextLess(500_000_000, 0)
  {
    assert Prefixes(0, 500_000_000, 9);
    TextLessIff(0, 500_000_000);
  }

  // ---- Text order is a total order ----

  lemma {:induction false} BelowTotal(a: seq<char>, b: seq<char>)
    ensures Below(a, b) ==> !Below(b, a)
    ensures a == b || Below(a, b) || Below(b, a)
  {
    if a != [] && b != [] {
      BelowTotal(a[1..], b[1..]);
      if a[0] == b[0] && a[1..] == b[1..] { assert a == [a[0]] + a[1..] && b == [b[0]] + b[1..]; }
    }
  }

  lemma {:induction false} BelowTransitive(a: seq<char>, b: seq<char>, c: seq<char>)
    requires Below(a, b) && Below(b, c)
    ensures Below(a, c)
  {
    if a != [] && b != [] && c != [] && a[0] == b[0] == c[0] {
      BelowTransitive(a[1..], b[1..], c[1..]);
    }
  }

  /** What lies below b lies below everything b does not exceed. */
  lemma TextLessUpTo(a: Instant, b: Instant, c: Instant)
    requires TextLess(a, b) && !TextLess(c, b)
    ensures TextLess(a, c)
  {
    if a / NANOS == b / NANOS == c / NANOS {
      var x, y, z := Fraction(a % NANOS), Fraction(b % NANOS), Fraction(c % NANOS);
      BelowTotal(z, y);
      if z != y { BelowTransitive(x, y, z); }
    }
  }

  // ---- Days ----

  /** The local calendar day of an instant, at a fixed offset from UTC in seconds. */
  function LocalDay(t: Instant, offset: int): int { (t / NANOS + offset) / DAY_SECONDS }

  /** Instants ordered by whole seconds have ordered days. */
  lemma DaysInOrder(a: Instant, b: Instant, offset: int)
    requires a / NANOS <= b / NANOS
    ensures LocalDay(a, offset) <= LocalDay(b, offset)
  {
  }
}
