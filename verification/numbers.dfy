/** Account numbers: `str(random.randint(10000, 99999))`, a five-digit
    decimal string with no leading zero, retried until it is not a key. */
module AccountNumbers {
  import opened Outcomes

  const Lowest := 10000
  const Highest := 99999
  /** How many distinct account numbers exist. */
  const Capacity := Highest - Lowest + 1

  predicate IsDigit(c: char) {
    '0' <= c <= '9'
  }

  function DigitValue(c: char): int
    requires IsDigit(c)
  {
    c as int - '0' as int
  }

  function DigitChar(d: int): (c: char)
    requires 0 <= d <= 9
    ensures IsDigit(c) && DigitValue(c) == d
  {
    ('0' as int + d) as char
  }

  /** The shape of every number the generator can produce. */
  predicate IsAccountNumber(s: string) {
    |s| == 5 && s[0] != '0' && forall i :: 0 <= i < |s| ==> IsDigit(s[i])
  }

  /** The value a string of decimal digits denotes. */
  function Value(s: string): int
    requires forall i :: 0 <= i < |s| ==> IsDigit(s[i])
  {
    if |s| == 0 then 0 else 10 * Value(s[..|s| - 1]) + DigitValue(s[|s| - 1])
  }

  /** A five-digit string denotes its digits weighted by powers of ten. */
  lemma ValueOfFive(s: string)
    requires |s| == 5 && forall i :: 0 <= i < |s| ==> IsDigit(s[i])
    ensures Value(s) == (((DigitValue(s[0]) * 10 + DigitValue(s[1])) * 10 + DigitValue(s[2])) * 10
                          + DigitValue(s[3])) * 10 + DigitValue(s[4])
  {
    assert s[..4][..3] == s[..3] && s[..3][..2] == s[..2];
    assert s[..2][..1] == s[..1] && s[..1][..0] == [];
    assert Value(s[..1]) == DigitValue(s[0]);
    assert Value(s[..2]) == 10 * Value(s[..1]) + DigitValue(s[1]);
    assert Value(s[..3]) == 10 * Value(s[..2]) + DigitValue(s[2]);
    assert Value(s[..4]) == 10 * Value(s[..3]) + DigitValue(s[3]);
    assert Value(s) == 10 * Value(s[..4]) + DigitValue(s[4]);
  }

  /** Python's `str(n)` for a number in the generator's range. */
  function NumberText(n: int): (s: string)
    requires Lowest <= n <= Highest
    ensures IsAccountNumber(s)
    ensures Value(s) == n
  {
    var q1 := n / 10;
    var q2 := q1 / 10;
    var q3 := q2 / 10;
    var s := [DigitChar(q3 / 10), DigitChar(q3 % 10), DigitChar(q2 % 10),
              DigitChar(q1 % 10), DigitChar(n % 10)];
    ValueOfFive(s);
    s
  }

  lemma NumberTextInjective(m: int, n: int)
    requires Lowest <= m <= Highest && Lowest <= n <= Highest
    requires NumberText(m) == NumberText(n)
    ensures m == n
  {
  }

  /** The texts of all numbers in `[lo, Highest]`. */
  function NumbersFrom(lo: int): set<string>
    requires Lowest <= lo
  {
    set n | lo <= n <= Highest :: NumberText(n)
  }

  lemma {:induction false} NumbersFromSize(lo: int)
    requires Lowest <= lo <= Highest + 1
    ensures |NumbersFrom(lo)| == Highest + 1 - lo
    decreases Highest + 1 - lo
  {
    if lo == Highest + 1 {
      assert NumbersFrom(lo) == {};
    } else {
      NumbersFromSize(lo + 1);
      assert NumbersFrom(lo) == {NumberText(lo)} + NumbersFrom(lo + 1);
    }
  }

  lemma SubsetSize<T>(a: set<T>, b: set<T>)
    requires a <= b
    ensures |a| <= |b|
  {
    assert b == a + (b - a);
    assert a * (b - a) == {};
  }

  /** While fewer than `Capacity` numbers are taken, some draw can succeed:
      the generator's retry loop has a number it can return. */
  lemma FreeNumberExists(taken: set<string>)
    requires |taken| < Capacity
    ensures exists n :: Lowest <= n <= Highest && NumberText(n) !in taken
  {
    if forall n :: Lowest <= n <= Highest ==> NumberText(n) in taken {
      NumbersFromSize(Lowest);
      assert NumbersFrom(Lowest) <= taken;
      SubsetSize(NumbersFrom(Lowest), taken);
      assert false;
    }
  }

  /** The generator's retry loop, with the values `random.randint` returns
      supplied as `draws`: the first draw whose text is not already taken.
      `None` means the supplied draws ran out before the loop returned. */
  function FirstFresh(taken: set<string>, draws: seq<int>): (r: Option<string>)
    requires forall i :: 0 <= i < |draws| ==> Lowest <= draws[i] <= Highest
    ensures r.None? <==> forall i :: 0 <= i < |draws| ==> NumberText(draws[i]) in taken
    ensures r.Some? ==> r.value !in taken && IsAccountNumber(r.value)
    ensures r.Some? ==> exists i :: 0 <= i < |draws| && r.value == NumberText(draws[i])
                          && forall j :: 0 <= j < i ==> NumberText(draws[j]) in taken
    decreases |draws|
  {
    if |draws| == 0 then None
    else if NumberText(draws[0]) !in taken then Some(NumberText(draws[0]))
    else FirstFresh(taken, draws[1..])
  }
}
