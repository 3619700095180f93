/** How the ids of parts are written. */
module ThreadKeys {
  import opened ThreadModel
  import ThreadIds

  predicate IsDigits(t: string) { forall i :: 0 <= i < |t| ==> '0' <= t[i] <= '9' }

  /** The number a row of digits stands for. */
  function ValueOf(t: string): nat
    requires IsDigits(t)
  {
    if t == "" then 0 else 10 * ValueOf(t[..|t| - 1]) + (t[|t| - 1] as int - '0' as int)
  }

  lemma LastDigit(t: string, d: nat)
    requires IsDigits(t) && d < 10
    ensures IsDigits(t + [Digit(d)]) && ValueOf(t + [Digit(d)]) == 10 * ValueOf(t) + d
  {
    var longer := t + [Digit(d)];
    assert longer[..|longer| - 1] == t && longer[|longer| - 1] == Digit(d);
    assert Digit(d) as int == '0' as int + d;
  }

  /** The digits of a number read as that number, without leading zeros. */
  lemma {:induction false} DecimalReads(n: nat)
    ensures IsDigits(Decimal(n)) && ValueOf(Decimal(n)) == n && (n > 0 ==> Decimal(n)[0] != '0')
  {
    if n >= 10 {
      DecimalReads(n / 10);
      LastDigit(Decimal(n / 10), n % 10);
      assert n == 10 * (n / 10) + n % 10;
    } else {
      LastDigit("", n);
      assert "" + [Digit(n)] == [Digit(n)];
    }
  }

  /** The ids tried for `id`: itself first, and then `id:2`, `id:3` and so on. */
  lemma CandidateReads(id: string, n: nat)
    requires n >= 1
    ensures n == 1 ==> Candidate(id, n) == id
    ensures n > 1 ==>
      var t := Candidate(id, n);
      |t| > |id| + 1 && t[..|id|] == id && t[|id|] == ':' && IsDigits(t[|id| + 1..]) && ValueOf(t[|id| + 1..]) == n
  {
    if n > 1 {
      DecimalReads(n);
      ThreadIds.DecimalLength(n);
      assert Candidate(id, n)[|id| + 1..] == Decimal(n);
    }
  }
}
