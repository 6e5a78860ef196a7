/** Booking references `BK-<year>-<seq padded to six digits>`. */
module BookingRefs {

  /** A value of the year's counter, as generateBookingRef reads it back. */
  datatype RefNumber = RefNumber(year: nat, seqNo: nat)

  function Digit(d: nat): char
    requires d < 10
  {
    ('0' as int + d) as char
  }

  predicate AllDigits(s: string) {
    forall i :: 0 <= i < |s| ==> '0' <= s[i] <= '9'
  }

  /** `String(n)` for a natural number. */
  function Decimal(n: nat): (s: string)
    ensures AllDigits(s)
  {
    if n < 10 then [Digit(n)] else Decimal(n / 10) + [Digit(n % 10)]
  }

  function Zeros(n: nat): (s: string)
    ensures |s| == n && forall i :: 0 <= i < n ==> s[i] == '0'
  {
    seq(n, _ => '0')
  }

  /** `s.padStart(width, '0')`: longer strings are left alone. */
  function PadStart(s: string, width: nat): string {
    if |s| >= width then s else Zeros(width - |s|) + s
  }

  function Print(r: RefNumber): string {
    "BK-" + Decimal(r.year) + "-" + PadStart(Decimal(r.seqNo), 6)
  }

  // ── Reading a reference back ─────────────────────────────────────────────────

  function Value(s: string): nat
    requires AllDigits(s)
  {
    if s == [] then 0 else 10 * Value(s[..|s| - 1]) + (s[|s| - 1] as int - '0' as int)
  }

  lemma {:induction false} ValueOfDecimal(n: nat)
    ensures Value(Decimal(n)) == n
  {
    if n >= 10 {
      ValueOfDecimal(n / 10);
      assert Decimal(n)[..|Decimal(n)| - 1] == Decimal(n / 10);
    }
  }

  lemma {:induction false} LeadingZeros(k: nat, s: string)
    requires AllDigits(s)
    ensures AllDigits(Zeros(k) + s) && Value(Zeros(k) + s) == Value(s)
  {
    if s == [] {
      if k > 0 {
        LeadingZeros(k - 1, []);
        assert (Zeros(k) + s)[..k - 1] == Zeros(k - 1) + [];
      }
    } else {
      LeadingZeros(k, s[..|s| - 1]);
      assert (Zeros(k) + s)[..k + |s| - 1] == Zeros(k) + s[..|s| - 1];
    }
  }

  lemma ValueOfPadded(n: nat, width: nat)
    ensures AllDigits(PadStart(Decimal(n), width)) && Value(PadStart(Decimal(n), width)) == n
  {
    ValueOfDecimal(n);
    if |Decimal(n)| < width {
      LeadingZeros(width - |Decimal(n)|, Decimal(n));
    }
  }

  /** Two digit strings followed by a dash agree exactly when the whole texts do. */
  lemma SameUpToDash(a: string, x: string, b: string, y: string)
    requires AllDigits(a) && AllDigits(b)
    requires a + "-" + x == b + "-" + y
    ensures a == b && x == y
  {
    var s := a + "-" + x;
    var t := b + "-" + y;
    assert s[|a|] == '-' && t[|b|] == '-';
    assert forall i :: 0 <= i < |a| ==> s[i] == a[i];
    assert forall i :: 0 <= i < |b| ==> t[i] == b[i];
    assert |a| == |b|;
    assert a == s[..|a|] && b == t[..|b|];
    assert x == s[|a| + 1..] && y == t[|b| + 1..];
  }

  lemma {:induction false} NoLeadingZero(n: nat)
    ensures |Decimal(n)| >= 1 && (Decimal(n)[0] == '0' <==> n == 0) && (n == 0 ==> |Decimal(n)| == 1)
  {
    if n >= 10 {
      NoLeadingZero(n / 10);
      assert Decimal(n)[0] == Decimal(n / 10)[0];
    }
  }

  /**
    The form of a reference: BK, the year and the counter in decimal, the year without leading zeros and the
    counter in six digits, or in more if it needs them and then without leading zeros.
  */
  lemma Format(r: RefNumber) returns (year: string, number: string)
    ensures Print(r) == "BK-" + year + "-" + number
    ensures AllDigits(year) && Value(year) == r.year && |year| >= 1 && (year[0] == '0' ==> |year| == 1)
    ensures AllDigits(number) && Value(number) == r.seqNo && |number| >= 6 && (|number| > 6 ==> number[0] != '0')
  {
    year, number := Decimal(r.year), PadStart(Decimal(r.seqNo), 6);
    ValueOfDecimal(r.year);
    ValueOfPadded(r.seqNo, 6);
    NoLeadingZero(r.year);
    NoLeadingZero(r.seqNo);
  }

  lemma YearAndNumber(r: RefNumber)
    ensures Print(r)[3..] == Decimal(r.year) + "-" + PadStart(Decimal(r.seqNo), 6)
    ensures AllDigits(Decimal(r.year)) && Value(Decimal(r.year)) == r.year
    ensures AllDigits(PadStart(Decimal(r.seqNo), 6)) && Value(PadStart(Decimal(r.seqNo), 6)) == r.seqNo
  {
    ValueOfDecimal(r.year);
    ValueOfPadded(r.seqNo, 6);
  }

  /** Printing is injective for every year and every counter value, beyond six digits too. */
  lemma PrintInjective(r: RefNumber, q: RefNumber)
    ensures Print(r) == Print(q) <==> r == q
  {
    if Print(r) == Print(q) {
      YearAndNumber(r);
      YearAndNumber(q);
      SameUpToDash(Decimal(r.year), PadStart(Decimal(r.seqNo), 6), Decimal(q.year), PadStart(Decimal(q.seqNo), 6));
    }
  }
}
