/** The texts the store builds from its counters: donor codes such as
    `DNR1001`, bill numbers such as `BILL-20240103-1001`, and the donor's
    QR code payload. */
module Text {

  predicate IsDigit(c: char) {
    '0' <= c <= '9'
  }

  /** The value of a digit character. */
  function DigitValue(c: char): nat
    requires IsDigit(c)
  {
    c as int - '0' as int
  }

  function DigitChar(d: nat): (c: char)
    requires d < 10
    ensures IsDigit(c) && DigitValue(c) == d
  {
    "0123456789"[d]
  }

  /** The number a string of decimal digits denotes, most significant digit
      first. */
  function DecimalValue(s: string): nat
    requires forall i :: 0 <= i < |s| ==> IsDigit(s[i])
    decreases |s|
  {
    if |s| == 0 then 0 else 10 * DecimalValue(s[..|s| - 1]) + DigitValue(s[|s| - 1])
  }

  /** The decimal text of `n`, as a template literal `${n}` renders it. */
  function NatToString(n: nat): (s: string)
    ensures |s| >= 1
    ensures n >= 10 ==> |s| >= 2
    ensures forall i :: 0 <= i < |s| ==> IsDigit(s[i])
    ensures DecimalValue(s) == n
    ensures n > 0 || |s| > 1 ==> s[0] != '0'
    decreases n
  {
    if n < 10 then [DigitChar(n)]
    else
      var s := NatToString(n / 10) + [DigitChar(n % 10)];
      assert s[..|s| - 1] == NatToString(n / 10);
      s
  }

  /** Different numbers have different decimal texts: each text denotes its
      own number. */
  lemma NatToStringInjective(a: nat, b: nat)
    requires NatToString(a) == NatToString(b)
    ensures a == b
  {
    assert a == DecimalValue(NatToString(a)) == DecimalValue(NatToString(b)) == b;
  }

  /** `${i}` for an integer that may be negative. */
  function IntToString(i: int): (s: string)
    ensures |s| >= 1
    ensures i >= 0 ==> forall k :: 0 <= k < |s| ==> IsDigit(s[k])
    ensures i < 0 ==> s[0] == '-' && forall k :: 1 <= k < |s| ==> IsDigit(s[k])
    ensures i >= 0 ==> DecimalValue(s) == i
    ensures i < 0 ==> |s| >= 2 && DecimalValue(s[1..]) == -i
  {
    if i < 0 then
      var s := "-" + NatToString(-i);
      assert s[1..] == NatToString(-i);
      s
    else NatToString(i)
  }

  /** `DNR${counter}`: the donor code returned by generateDonorId. */
  function DonorCode(counter: nat): (c: string)
    ensures |c| > 3 && c[..3] == "DNR" && c[3..] == NatToString(counter)
    ensures forall i :: 3 <= i < |c| ==> IsDigit(c[i])
  {
    "DNR" + NatToString(counter)
  }

  /** The first two codes generateDonorId hands out. */
  lemma FirstDonorCodes()
    ensures DonorCode(1001) == "DNR1001" && DonorCode(1002) == "DNR1002"
  {
  }

  /** Two donor codes are equal only when their counters are. */
  lemma DonorCodeInjective(a: nat, b: nat)
    requires DonorCode(a) == DonorCode(b)
    ensures a == b
  {
    assert NatToString(a) == DonorCode(a)[3..] == DonorCode(b)[3..] == NatToString(b);
    NatToStringInjective(a, b);
  }

  /** `BILL-${date}-${counter}`: the bill number returned by
      generateBillNumber. */
  function BillNumber(dateDigits: string, counter: nat): (b: string)
    ensures |b| > 6 + |dateDigits| && b[..5] == "BILL-"
    ensures b[5..5 + |dateDigits|] == dateDigits && b[5 + |dateDigits|] == '-'
    ensures b[6 + |dateDigits|..] == NatToString(counter)
    ensures forall i :: 6 + |dateDigits| <= i < |b| ==> IsDigit(b[i])
  {
    "BILL-" + dateDigits + "-" + NatToString(counter)
  }

  /** Past the `BILL-` prefix, the first dash ends the date part. */
  lemma DashAfterDate(d: string, n: nat)
    requires '-' !in d
    ensures var s := BillNumber(d, n);
      |s| > 5 + |d| && s[5 + |d|] == '-' && forall i :: 5 <= i < 5 + |d| ==> s[i] != '-'
  {
    var s := BillNumber(d, n);
    assert forall i :: 5 <= i < 5 + |d| ==> s[i] == d[i - 5];
  }

  /** A bill number determines its date part and its counter, as long as the
      date part holds no dash (it is YYYYMMDD). */
  lemma BillNumberInjective(d1: string, n1: nat, d2: string, n2: nat)
    requires '-' !in d1 && '-' !in d2
    requires BillNumber(d1, n1) == BillNumber(d2, n2)
    ensures d1 == d2 && n1 == n2
  {
    var s := BillNumber(d1, n1);
    DashAfterDate(d1, n1);
    DashAfterDate(d2, n2);
    assert d1 == s[5..5 + |d1|] == d2;
    assert NatToString(n1) == s[6 + |d1|..] == NatToString(n2);
    NatToStringInjective(n1, n2);
  }

  /** `DONOR-${donorId}-${Date.now()}`: the QR payload fixed at creation. */
  function QrCode(donorId: string, instant: int): (q: string)
    ensures |q| > 7 + |donorId| && q[..6] == "DONOR-"
    ensures q[6..6 + |donorId|] == donorId && q[6 + |donorId|] == '-'
    ensures q[7 + |donorId|..] == IntToString(instant)
  {
    "DONOR-" + donorId + "-" + IntToString(instant)
  }
}
