/** Small shared vocabulary: optional values, lists without repetition, and decimal rendering of integers. */
module Prelude {
  datatype Option<+T> = None | Some(value: T)

  ghost predicate Distinct<T>(s: seq<T>) { forall i, j :: 0 <= i < j < |s| ==> s[i] != s[j] }
}

/** The decimal text that Go's `%d` verb and `strconv.Itoa` produce. */
module Decimal {
  const DIGITS := "0123456789"

  predicate IsDigit(c: char) { '0' <= c <= '9' }

  function Itoa(n: nat): (s: string)
    ensures s != []
    ensures forall c <- s :: IsDigit(c)
  {
    if n < 10 then [DIGITS[n]] else Itoa(n / 10) + [DIGITS[n % 10]]
  }

  function IntText(n: int): (s: string)
    ensures s != []
    ensures forall c <- s :: IsDigit(c) || c == '-'
  {
    if n < 0 then "-" + Itoa(-n) else Itoa(n)
  }

  /** The number a string of digits denotes. */
  function Value(s: string): (n: nat)
    requires forall c <- s :: IsDigit(c)
  {
    if s == [] then 0
    else
      assert IsDigit(s[|s| - 1]);
      10 * Value(s[..|s| - 1]) + (s[|s| - 1] as int - '0' as int)
  }

  /** Reading back a rendered number returns it, so the rendering is injective. */
  lemma {:induction false} ValueOfItoa(n: nat)
    ensures Value(Itoa(n)) == n
  {
    if n >= 10 {
      ValueOfItoa(n / 10);
      assert Itoa(n)[..|Itoa(n)| - 1] == Itoa(n / 10);
    }
  }
}
