/**
 Dispatch lease ids: the text lease-EPOCH-SEQ, with SEQ taken from a 64-bit counter that starts at 1 and wraps.
 */
module LeaseIds {

  const U64: nat := 0x1_0000_0000_0000_0000

  function Digit(d: nat): (c: char)
    requires d < 10
    ensures '0' <= c <= '9'
  {
    '0' + d as char
  }

  /** Decimal text without leading zeros. */
  function Decimal(n: nat): (s: string)
    ensures s != [] && forall i :: 0 <= i < |s| ==> '0' <= s[i] <= '9'
  {
    if n < 10 then [Digit(n)] else Decimal(n / 10) + [Digit(n % 10)]
  }

  /** What a text of digits denotes. */
  function Value(s: string): nat
    requires forall i :: 0 <= i < |s| ==> '0' <= s[i] <= '9'
  {
    if s == [] then 0 else 10 * Value(s[..|s|-1]) + (s[|s|-1] - '0') as nat
  }

  lemma {:induction false} DecimalRoundTrip(n: nat)
    ensures Value(Decimal(n)) == n
  {
    if n >= 10 {
      DecimalRoundTrip(n / 10);
      assert Decimal(n)[..|Decimal(n)| - 1] == Decimal(n / 10);
    } else {
      assert Decimal(n)[..0] == [];
    }
  }

  function LeaseId(epoch: nat, s: nat): string { "lease-" + Decimal(epoch) + "-" + Decimal(s) }

  lemma DashAfter(a: string, b: string)
    ensures (a + "-" + b)[|a|] == '-' && forall i :: 0 <= i < |a| ==> (a + "-" + b)[i] == a[i]
  {
  }

  /** Two texts of digits, each followed by a dash and more digits, split in the same place. */
  lemma SplitAtDash(a: string, b: string, c: string, d: string)
    requires forall i :: 0 <= i < |a| ==> '0' <= a[i] <= '9'
    requires forall i :: 0 <= i < |c| ==> '0' <= c[i] <= '9'
    requires a + "-" + b == c + "-" + d
    ensures a == c && b == d
  {
    DashAfter(a, b);
    DashAfter(c, d);
    assert |a| == |c|;
    var x := a + "-" + b;
    assert a == x[..|a|] && c == x[..|a|];
    assert b == x[|a|+1..] && d == x[|a|+1..];
  }

  /** The format is injective in both numbers. */
  lemma LeaseIdInjective(epoch: nat, s: nat, epoch': nat, s': nat)
    requires LeaseId(epoch, s) == LeaseId(epoch', s')
    ensures epoch == epoch' && s == s'
  {
    var rest, rest' := Decimal(epoch) + "-" + Decimal(s), Decimal(epoch') + "-" + Decimal(s');
    assert LeaseId(epoch, s) == "lease-" + rest && LeaseId(epoch', s') == "lease-" + rest';
    assert rest == LeaseId(epoch, s)[6..] && rest' == LeaseId(epoch', s')[6..];
    SplitAtDash(Decimal(epoch), Decimal(s), Decimal(epoch'), Decimal(s'));
    DecimalRoundTrip(epoch);
    DecimalRoundTrip(epoch');
    DecimalRoundTrip(s);
    DecimalRoundTrip(s');
  }

  /** The id handed out by the n-th call (counted from 0) of an epoch. */
  function NthLeaseId(epoch: nat, n: nat): string { LeaseId(epoch, (1 + n) % U64) }

  lemma NthLeaseIdNotEmpty(epoch: nat, n: nat)
    ensures NthLeaseId(epoch, n) != ""
  {
    assert |NthLeaseId(epoch, n)| > 0;
  }

  lemma SmallDifference(d: nat)
    requires 0 < d < U64
    ensures d % U64 == d
  {
  }

  /** Two calls yield the same id exactly when a multiple of 2^64 calls lies between them. */
  lemma LeaseIdsRecur(epoch: nat, m: nat, n: nat)
    requires m <= n
    ensures NthLeaseId(epoch, m) == NthLeaseId(epoch, n) <==> (n - m) % U64 == 0
  {
    if NthLeaseId(epoch, m) == NthLeaseId(epoch, n) {
      LeaseIdInjective(epoch, (1 + m) % U64, epoch, (1 + n) % U64);
    }
    SameRemainder(1 + m, 1 + n);
  }

  lemma SameRemainder(a: nat, b: nat)
    requires a <= b
    ensures a % U64 == b % U64 <==> (b - a) % U64 == 0
  {
    var qa, qb := a / U64, b / U64;
    assert a == qa * U64 + a % U64 && b == qb * U64 + b % U64;
  }

  /** Counting modulo 2^64, one call at a time. */
  lemma NextSequence(n: nat)
    ensures ((1 + n) % U64 + 1) % U64 == (2 + n) % U64 && (1 + n) % U64 < U64
  {
    var q := (1 + n) / U64;
    assert 1 + n == q * U64 + (1 + n) % U64;
    SameRemainder((1 + n) % U64 + 1, 2 + n);
  }

  /** Below 2^64 calls no id recurs. */
  lemma LeaseIdsDistinct(epoch: nat, m: nat, n: nat)
    requires m < n && n - m < U64
    ensures NthLeaseId(epoch, m) != NthLeaseId(epoch, n)
  {
    LeaseIdsRecur(epoch, m, n);
    SmallDifference(n - m);
  }

  /** The text: "lease", epoch and sequence number in decimal without leading zeros, joined by dashes. */
  lemma LeaseIdText(epoch: nat, s: nat) returns (a: string, b: string)
    ensures LeaseId(epoch, s) == "lease-" + a + "-" + b && a != [] && b != []
    ensures (forall i :: 0 <= i < |a| ==> '0' <= a[i] <= '9') && Value(a) == epoch && (|a| > 1 ==> a[0] != '0')
    ensures (forall i :: 0 <= i < |b| ==> '0' <= b[i] <= '9') && Value(b) == s && (|b| > 1 ==> b[0] != '0')
  {
    a, b := Decimal(epoch), Decimal(s);
    DecimalRoundTrip(epoch);
    DecimalRoundTrip(s);
    NoLeadingZero(epoch);
    NoLeadingZero(s);
  }

  lemma {:induction false} NoLeadingZero(n: nat)
    ensures n > 0 ==> Decimal(n)[0] != '0'
    ensures |Decimal(n)| > 1 ==> n > 0
  {
    if n >= 10 {
      NoLeadingZero(n / 10);
    }
  }
}
