/** scripts/verify-ledger.ts, assertions 1 and 2: what the script reports, and when it reports nothing. */
module VerifyLedger {
  import opened Wrappers
  import opened Sums
  import opened Companies
  import opened Protocol
  import opened Conservation
  import opened BookingNumbers

  datatype Violation =
    | LedgerMismatch(company: CompanyId, expected: int, actual: int)
    | DebitCount(booking: nat, count: nat)
    | DebitAmount(booking: nat, recorded: int, expected: int)

  // ── What each assertion looks at ─────────────────────────────────────────────

  /** Debits less credits, as the two aggregations of assertion 1 compute them. */
  function LedgerSays(w: World, c: CompanyId): int {
    Sum(w.ledger, UseBy(c)) - Sum(w.ledger, RefundBy(c))
  }

  /** Written out: for any functions that pick these rows' amounts. */
  lemma LedgerSaysExactly(w: World, c: CompanyId, debits: Row -> int, credits: Row -> int)
    requires forall r :: debits(r) == if r.company == c && r.kind == CreditUse && r.direction == DirDebit then r.amount else 0
    requires forall r :: credits(r) == if r.company == c && r.kind == CreditRefund && r.direction == DirCredit then r.amount else 0
    ensures LedgerSays(w, c) == Sum(w.ledger, debits) - Sum(w.ledger, credits)
    ensures Mismatched(w, c) <==>
      Sum(w.ledger, debits) - Sum(w.ledger, credits) != if c in w.accounts then w.accounts[c].outstandingBalance else 0
  {
    SameSum(w.ledger, UseBy(c), debits);
    SameSum(w.ledger, RefundBy(c), credits);
  }

  predicate Mismatched(w: World, c: CompanyId) {
    LedgerSays(w, c) != Outstanding(w, c)
  }

  /** A credit booking, confirmed or completed, whose debit rows are not a single row of its total. */
  predicate BadDebits(w: World, b: nat) {
    var rows := DebitRows(w.ledger, b);
    b < |w.bookings| && (|rows| != 1 || rows[0].amount != w.bookings[b].totalAmount)
  }

  /** A debit row that refers to booking b, at position i. */
  predicate DebitAt(w: World, b: nat, i: nat) {
    i < |w.ledger| && w.ledger[i].refBooking == Some(b) && w.ledger[i].direction == DirDebit
  }

  /** Exactly one row of the ledger is a debit that refers to the booking, and its amount is the booking's total. */
  ghost predicate OneRightDebit(w: World, b: nat) {
    b < |w.bookings| && exists i: nat :: DebitAt(w, b, i) && w.ledger[i].amount == w.bookings[b].totalAmount
                                        && forall j: nat :: DebitAt(w, b, j) ==> j == i
  }

  /** A sole debit is what the query finds. */
  lemma {:induction false} SoleDebit(ledger: seq<Row>, b: nat, i: nat)
    requires i < |ledger| && DebitFor(ledger[i], b) && forall j :: 0 <= j < |ledger| && j != i ==> !DebitFor(ledger[j], b)
    ensures DebitRows(ledger, b) == [ledger[i]]
  {
    var n := |ledger| - 1;
    if i == n {
      NoDebitRows(ledger[..n], b);
    } else {
      SoleDebit(ledger[..n], b, i);
    }
  }

  lemma {:induction false} NoneFound(ledger: seq<Row>, b: nat, j: nat)
    requires DebitRows(ledger, b) == [] && j < |ledger|
    ensures !DebitFor(ledger[j], b)
  {
    if j < |ledger| - 1 {
      NoneFound(ledger[..|ledger| - 1], b, j);
    }
  }

  /** If the query finds one row, it is a sole debit. */
  lemma {:induction false} FoundSole(ledger: seq<Row>, b: nat) returns (i: nat)
    requires |DebitRows(ledger, b)| == 1
    ensures i < |ledger| && DebitFor(ledger[i], b) && DebitRows(ledger, b)[0] == ledger[i]
    ensures forall j :: 0 <= j < |ledger| && j != i ==> !DebitFor(ledger[j], b)
  {
    var n := |ledger| - 1;
    if DebitFor(ledger[n], b) {
      i := n;
      forall j | 0 <= j < n
        ensures !DebitFor(ledger[j], b)
      {
        NoneFound(ledger[..n], b, j);
      }
    } else {
      i := FoundSole(ledger[..n], b);
      assert forall j :: 0 <= j < n && j != i ==> !DebitFor(ledger[..n][j], b);
    }
  }

  lemma BadDebitsExactly(w: World, b: nat)
    requires b < |w.bookings|
    ensures BadDebits(w, b) <==> !OneRightDebit(w, b)
  {
    if |DebitRows(w.ledger, b)| == 1 {
      var i := FoundSole(w.ledger, b);
      assert forall j: nat :: DebitAt(w, b, j) <==> j == i;
    }
    if OneRightDebit(w, b) {
      var i: nat :| DebitAt(w, b, i) && w.ledger[i].amount == w.bookings[b].totalAmount && forall j: nat :: DebitAt(w, b, j) ==> j == i;
      assert forall j: nat :: j < |w.ledger| && DebitFor(w.ledger[j], b) ==> DebitAt(w, b, j);
      SoleDebit(w.ledger, b, i);
    }
  }

  /** The bookings assertion 2 queries. */
  predicate Checked(w: World, b: nat) {
    && b < |w.bookings| && w.bookings[b].paymentMethod == Credit
    && (w.bookings[b].status == Confirmed || w.bookings[b].status == Completed)
  }

  function CompanyViolation(w: World, c: CompanyId): Violation {
    LedgerMismatch(c, LedgerSays(w, c), Outstanding(w, c))
  }

  function BookingViolation(w: World, b: nat): Violation
    requires BadDebits(w, b)
  {
    var rows := DebitRows(w.ledger, b);
    if |rows| != 1 then DebitCount(b, |rows|) else DebitAmount(b, rows[0].amount, w.bookings[b].totalAmount)
  }

  /** What a violation says of its company. */
  lemma CompanyViolationSays(w: World, c: CompanyId)
    ensures var v := CompanyViolation(w, c);
      v.LedgerMismatch? && v.company == c && v.expected == LedgerSays(w, c)
      && v.actual == if c in w.accounts then w.accounts[c].outstandingBalance else 0
  {
  }

  /** And of its booking: a count other than one, or the amount of the sole debit against the booking's total. */
  lemma BookingViolationSays(w: World, b: nat)
    requires BadDebits(w, b)
    ensures var v := BookingViolation(w, b);
      && !v.LedgerMismatch? && v.booking == b
      && (v.DebitCount? ==> v.count == |DebitRows(w.ledger, b)| != 1)
      && (v.DebitAmount? ==>
            && v.expected == w.bookings[b].totalAmount != v.recorded
            && exists i: nat :: DebitAt(w, b, i) && w.ledger[i].amount == v.recorded && forall j: nat :: DebitAt(w, b, j) ==> j == i)
  {
    if |DebitRows(w.ledger, b)| == 1 {
      var i := FoundSole(w.ledger, b);
      assert DebitAt(w, b, i) && forall j: nat :: DebitAt(w, b, j) ==> j == i;
    }
  }

  /** One violation per mismatched company, in the order listed. */
  function CompanyViolations(w: World, companies: seq<CompanyId>): seq<Violation> {
    if companies == [] then []
    else
      var c := companies[|companies| - 1];
      CompanyViolations(w, companies[..|companies| - 1]) + if Mismatched(w, c) then [CompanyViolation(w, c)] else []
  }

  function BookingViolations(w: World, bookings: seq<nat>): seq<Violation> {
    if bookings == [] then []
    else
      var b := bookings[|bookings| - 1];
      BookingViolations(w, bookings[..|bookings| - 1]) + if BadDebits(w, b) then [BookingViolation(w, b)] else []
  }

  /** The report lists exactly the offending companies and bookings. */
  lemma {:induction false} ExactlyOffendingCompanies(w: World, companies: seq<CompanyId>, v: Violation)
    ensures v in CompanyViolations(w, companies) <==>
      exists c :: c in companies && Mismatched(w, c) && v == CompanyViolation(w, c)
  {
    if companies != [] {
      var n := |companies| - 1;
      ExactlyOffendingCompanies(w, companies[..n], v);
      assert companies == companies[..n] + [companies[n]];
    }
  }

  lemma {:induction false} ExactlyOffendingBookings(w: World, bookings: seq<nat>, v: Violation)
    ensures v in BookingViolations(w, bookings) <==>
      exists b :: b in bookings && BadDebits(w, b) && v == BookingViolation(w, b)
  {
    if bookings != [] {
      var n := |bookings| - 1;
      ExactlyOffendingBookings(w, bookings[..n], v);
      assert bookings == bookings[..n] + [bookings[n]];
    }
  }

  lemma NoCompanyViolations(w: World, companies: seq<CompanyId>)
    ensures CompanyViolations(w, companies) == [] <==> forall c :: c in companies ==> !Mismatched(w, c)
  {
    var found := CompanyViolations(w, companies);
    if found != [] {
      ExactlyOffendingCompanies(w, companies, found[0]);
    }
    if c :| c in companies && Mismatched(w, c) {
      ExactlyOffendingCompanies(w, companies, CompanyViolation(w, c));
    }
  }

  lemma NoBookingViolations(w: World, bookings: seq<nat>)
    ensures BookingViolations(w, bookings) == [] <==> forall b :: b in bookings ==> !BadDebits(w, b)
  {
    var found := BookingViolations(w, bookings);
    if found != [] {
      ExactlyOffendingBookings(w, bookings, found[0]);
    }
    if b :| b in bookings && BadDebits(w, b) {
      ExactlyOffendingBookings(w, bookings, BookingViolation(w, b));
    }
  }

  lemma {:induction false} NoViolations(w: World, companies: seq<CompanyId>, bookings: seq<nat>)
    ensures CompanyViolations(w, companies) == [] <==> forall c :: c in companies ==> !Mismatched(w, c)
    ensures BookingViolations(w, bookings) == [] <==> forall b :: b in bookings ==> !BadDebits(w, b)
  {
    NoCompanyViolations(w, companies);
    NoBookingViolations(w, bookings);
  }

  /** What it takes to pass, on the stored documents. */
  ghost predicate AllRight(w: World) {
    && (forall c :: c in w.accounts ==> LedgerSays(w, c) == w.accounts[c].outstandingBalance)
    && (forall b: nat :: b < |w.bookings| ==>
          w.bookings[b].paymentMethod == Credit ==>
          w.bookings[b].status == Confirmed || w.bookings[b].status == Completed ==> OneRightDebit(w, b))
  }

  lemma NothingWrong(w: World)
    ensures AllRight(w) <==> (forall c :: c in w.accounts ==> !Mismatched(w, c)) && (forall b :: Checked(w, b) ==> !BadDebits(w, b))
  {
    forall b: nat | b < |w.bookings|
      ensures BadDebits(w, b) <==> !OneRightDebit(w, b)
    {
      BadDebitsExactly(w, b);
    }
    forall c
      ensures c in w.accounts ==> (Mismatched(w, c) <==> LedgerSays(w, c) != w.accounts[c].outstandingBalance)
    {
    }
    forall b: nat
      ensures Checked(w, b) <==>
        && b < |w.bookings| && w.bookings[b].paymentMethod == Credit
        && (w.bookings[b].status == Confirmed || w.bookings[b].status == Completed)
    {
    }
  }

  // ── The script ───────────────────────────────────────────────────────────────

  class Verifier {
    var violations: seq<Violation>

    constructor ()
      ensures violations == []
    {
      violations := [];
    }

    /** Assertion 1, over the companies a query lists. */
    method CheckCompanies(w: World, companies: seq<CompanyId>) returns (checked: nat, mismatches: nat)
      modifies this
      ensures violations == old(violations) + CompanyViolations(w, companies)
      ensures checked == |companies| && mismatches == |CompanyViolations(w, companies)|
    {
      checked, mismatches := 0, 0;
      while checked < |companies|
        invariant checked <= |companies|
        invariant violations == old(violations) + CompanyViolations(w, companies[..checked])
        invariant mismatches == |CompanyViolations(w, companies[..checked])|
      {
        var id := companies[checked];
        var expected := Sum(w.ledger, UseBy(id)) - Sum(w.ledger, RefundBy(id));
        var actual := Outstanding(w, id);
        if expected != actual {
          violations := violations + [LedgerMismatch(id, expected, actual)];
          mismatches := mismatches + 1;
        }
        assert companies[..checked + 1][..checked] == companies[..checked];
        checked := checked + 1;
      }
      assert companies[..|companies|] == companies;
    }

    /** Assertion 2, over the bookings a query lists. */
    method CheckBookings(w: World, bookings: seq<nat>) returns (checked: nat, mismatches: nat)
      requires forall i :: 0 <= i < |bookings| ==> bookings[i] < |w.bookings|
      modifies this
      ensures violations == old(violations) + BookingViolations(w, bookings)
      ensures checked == |bookings| && mismatches == |BookingViolations(w, bookings)|
    {
      checked, mismatches := 0, 0;
      while checked < |bookings|
        invariant checked <= |bookings|
        invariant violations == old(violations) + BookingViolations(w, bookings[..checked])
        invariant mismatches == |BookingViolations(w, bookings[..checked])|
      {
        var id := bookings[checked];
        var matches := DebitRows(w.ledger, id);
        if |matches| != 1 {
          violations := violations + [DebitCount(id, |matches|)];
          mismatches := mismatches + 1;
        } else if matches[0].amount != w.bookings[id].totalAmount {
          violations := violations + [DebitAmount(id, matches[0].amount, w.bookings[id].totalAmount)];
          mismatches := mismatches + 1;
        }
        assert bookings[..checked + 1][..checked] == bookings[..checked];
        checked := checked + 1;
      }
      assert bookings[..|bookings|] == bookings;
    }

    /** Assertions 1 and 2 one after the other: they leave the list of violations empty exactly when nothing is wrong. */
    method VerifyAll(w: World, companies: seq<CompanyId>, bookings: seq<nat>) returns (passed: bool)
      requires violations == []
      requires forall c :: c in companies <==> c in w.accounts
      requires forall b :: b in bookings <==> Checked(w, b)
      modifies this
      ensures passed <==> (forall c :: c in w.accounts ==> !Mismatched(w, c)) && (forall b :: Checked(w, b) ==> !BadDebits(w, b))
      ensures passed <==> AllRight(w)
      ensures violations == CompanyViolations(w, companies) + BookingViolations(w, bookings)
    {
      var a1Checked, a1Mismatches := CheckCompanies(w, companies);
      assert forall i :: 0 <= i < |bookings| ==> bookings[i] in bookings;
      var a2Checked, a2Mismatches := CheckBookings(w, bookings);
      NoViolations(w, companies, bookings);
      NothingWrong(w);
      passed := |violations| == 0;
    }
  }

  // ── When the protocol passes ─────────────────────────────────────────────────

  /** No request in flight, nothing stranded, every credit given back on a cancel logged. */
  predicate Quiescent(w: World) {
    && (forall i :: 0 <= i < |w.sagas| ==> !Holding(w.sagas[i]) && !w.sagas[i].pc.Stranded?)
    && (forall k :: 0 <= k < |w.cancels| ==> w.cancels[k].pc == Done && (w.cancels[k].credited == 0 || w.cancels[k].logged))
  }

  /** A row that AdminService.refundBooking wrote for company c. */
  predicate AdminRefundRow(r: Row, c: CompanyId) {
    r.company == c && r.kind == CreditRefund && r.balanceAfter.Some?
  }

  predicate NoAdminRefunds(w: World, c: CompanyId) {
    forall i :: 0 <= i < |w.ledger| ==> !AdminRefundRow(w.ledger[i], c)
  }

  predicate AdminRowsOk(w: World) {
    forall i :: 0 <= i < |w.ledger| && w.ledger[i].kind == CreditRefund && w.ledger[i].balanceAfter.Some? ==>
      w.ledger[i].direction == DirCredit && w.ledger[i].amount > 0
  }

  lemma AdminRowsStep(w: World, step: Step)
    requires AdminRowsOk(w) && Enabled(w, step)
    ensures AdminRowsOk(Apply(w, step))
  {
  }

  lemma {:induction false} AdminRowsInvariant(steps: seq<Step>, w: World)
    requires Exec(Empty(), steps) == Some(w)
    ensures AdminRowsOk(w)
  {
    if steps != [] {
      var v := Before(Empty(), steps);
      AdminRowsInvariant(steps[..|steps| - 1], v);
      AdminRowsStep(v, steps[|steps| - 1]);
    }
  }

  /** Administrator refunds add up to zero only if there are none: each is positive. */
  lemma {:induction false} AdminRefundsCount(rows: seq<Row>, c: CompanyId)
    requires forall i :: 0 <= i < |rows| && rows[i].kind == CreditRefund && rows[i].balanceAfter.Some? ==>
      rows[i].direction == DirCredit && rows[i].amount > 0
    ensures Sum(rows, AdminRefundBy(c)) >= 0
    ensures Sum(rows, AdminRefundBy(c)) == 0 <==> forall i :: 0 <= i < |rows| ==> !AdminRefundRow(rows[i], c)
  {
    if rows != [] {
      AdminRefundsCount(rows[..|rows| - 1], c);
    }
  }

  /** In every reachable state, exactly when assertion 1 reports a company. */
  lemma {:induction false} WhenMismatched(steps: seq<Step>, w: World, c: CompanyId)
    requires Exec(Empty(), steps) == Some(w)
    ensures Mismatched(w, c) <==>
      Held(w, c) + StrandedSum(w, c) + Sum(w.ledger, AdminRefundBy(c)) != Sum(w.cancels, UnloggedBy(c))
  {
    LedgerIdentity(steps, w, c);
  }

  /** In every reachable state, quiescent or not, assertion 2 has nothing to report. */
  lemma {:induction false} DebitsNeverBad(steps: seq<Step>, w: World, b: nat)
    requires Exec(Empty(), steps) == Some(w) && Checked(w, b)
    ensures !BadDebits(w, b)
  {
    OneDebitPerBooking(steps, w);
  }

  /** A quiescent reachable state passes assertion 1 for a company exactly when no administrator refund row of it is stored. */
  lemma {:induction false} QuiescentMismatch(steps: seq<Step>, w: World, c: CompanyId)
    requires Exec(Empty(), steps) == Some(w) && Quiescent(w)
    ensures !Mismatched(w, c) <==> NoAdminRefunds(w, c)
  {
    WhenMismatched(steps, w, c);
    AllZero(w.sagas, HeldBy(c));
    AllZero(w.sagas, StrandedBy(c));
    AllZero(w.cancels, UnloggedBy(c));
    AdminRowsInvariant(steps, w);
    AdminRefundsCount(w.ledger, c);
  }

  /** A quiescent reachable state passes both assertions exactly when no administrator refund row is stored. */
  lemma {:induction false} QuiescentPasses(steps: seq<Step>, w: World)
    requires Exec(Empty(), steps) == Some(w) && Quiescent(w)
    ensures (forall c :: c in w.accounts ==> !Mismatched(w, c)) <==> (forall c :: c in w.accounts ==> NoAdminRefunds(w, c))
    ensures forall b :: Checked(w, b) ==> !BadDebits(w, b)
  {
    forall c | c in w.accounts
      ensures !Mismatched(w, c) <==> NoAdminRefunds(w, c)
    {
      QuiescentMismatch(steps, w, c);
    }
    forall b | Checked(w, b)
      ensures !BadDebits(w, b)
    {
      DebitsNeverBad(steps, w, b);
    }
  }
}
