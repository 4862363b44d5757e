/** The Money value object: an immutable whole number of currency units.
    Every operation builds a new value. */
module Money {
  import opened Wrappers
  import Decimal

  datatype Money = Money(amount: int)

  function From(amount: int): Money {
    Money(amount)
  }

  function Zero(): Money {
    Money(0)
  }

  function ToInt(m: Money): int {
    m.amount
  }

  function Add(m: Money, other: Money): Money {
    Money(m.amount + other.amount)
  }

  /** No clamping: the difference may be negative. */
  function Sub(m: Money, other: Money): Money {
    Money(m.amount - other.amount)
  }

  /** PHP's `round(n / 100)` on the exact quotient: the nearest integer, with
      halves rounded away from zero. The ensures clauses characterise the
      result without reference to the computation. */
  function RoundHundredth(n: int): (r: int)
    ensures -50 <= n - 100 * r <= 50
    ensures n - 100 * r == 50 ==> n < 0
    ensures n - 100 * r == -50 ==> n > 0
  {
    if n >= 0 then (n + 50) / 100 else -((-n + 50) / 100)
  }

  /** The characterisation in RoundHundredth's contract leaves no choice. */
  lemma RoundHundredthUnique(n: int, r: int)
    requires -50 <= n - 100 * r <= 50
    requires n - 100 * r == 50 ==> n < 0
    requires n - 100 * r == -50 ==> n > 0
    ensures r == RoundHundredth(n)
  {
  }

  /** `percentage` of the amount, rounded to a whole unit. */
  function Percentage(m: Money, percentage: int): Money {
    Money(RoundHundredth(m.amount * percentage))
  }

  /** The largest of a non-empty list of amounts, as PHP's variadic `max`. */
  function MaxOf(ms: seq<Money>): (r: Money)
    requires |ms| >= 1
    ensures r in ms
    ensures forall x :: x in ms ==> x.amount <= r.amount
  {
    if |ms| == 1 then ms[0]
    else
      var rest := MaxOf(ms[1..]);
      if ms[0].amount >= rest.amount then ms[0] else rest
  }

  /** `max(...$others)`: the largest of this value and the others. With no
      others this value itself (see MaxAsWritten for what the code does then). */
  function Max(m: Money, others: seq<Money>): (r: Money)
    ensures r == m || r in others
    ensures m.amount <= r.amount
    ensures forall o :: o in others ==> o.amount <= r.amount
  {
    MaxOf([m] + others)
  }

  /** `max` exactly as the code calls PHP's built-in: with no others, PHP's
      `max()` receives a single int, which under strict types is a TypeError. */
  function MaxAsWritten(m: Money, others: seq<Money>): (r: Result<Money>)
    ensures r.Err? <==> others == []
    ensures r.Ok? ==> r.value == Max(m, others)
  {
    if others == [] then Err(TypeError("max(): Argument #1 ($value) must be of type array, int given"))
    else Ok(Max(m, others))
  }

  /** `sprintf('%.2f', amount)`: the whole amount followed by ".00"; the
      amount is not divided by 100. */
  function ToString(m: Money): (s: string)
    ensures |s| >= 4 && s[|s| - 3..] == ".00"
    ensures s[0] == '-' <==> m.amount < 0
  {
    Decimal.IntToString(m.amount) + ".00"
  }

  // ---------------------------------------------------------------- properties

  lemma FromToInt(n: int)
    ensures ToInt(From(n)) == n
  {
  }

  lemma ZeroToInt()
    ensures ToInt(Zero()) == 0
  {
  }

  /** Subtraction undoes addition, and subtraction can go below zero. */
  lemma AddSubInverse(a: Money, b: Money)
    ensures Sub(Add(a, b), b) == a
    ensures Add(Sub(a, b), b) == a
    ensures a.amount < b.amount ==> ToInt(Sub(a, b)) < 0
  {
  }

  lemma PercentageIdentities(m: Money)
    ensures Percentage(m, 100) == m
    ensures Percentage(m, 0) == Zero()
  {
  }

  /** The two cases of the unit test; the second yields 1, not the 4 the test expects. */
  lemma PercentageExamples()
    ensures ToInt(Percentage(From(100), 10)) == 10
    ensures ToInt(Percentage(From(50), 2)) == 1
  {
  }

  /** The amount before ".00" reads back as the amount. */
  lemma ToStringRoundTrip(m: Money)
    ensures var s := ToString(m); Decimal.ParseInt(s[..|s| - 3]) == m.amount
  {
    var s := ToString(m);
    assert s[..|s| - 3] == Decimal.IntToString(m.amount);
    Decimal.ParseIntToString(m.amount);
  }

  lemma ToStringExamples()
    ensures ToString(From(10)) == "10.00"
    ensures ToString(From(123)) == "123.00"
  {
  }

  /** Max with no others, when corrected, is this value. */
  lemma MaxOfNone(m: Money)
    ensures Max(m, []) == m
  {
  }

  lemma MaxAsWrittenFailsWithNoOthers(m: Money)
    ensures MaxAsWritten(m, []).Err?
    ensures MaxAsWritten(m, []).error.TypeError?
  {
  }
}
