/**
  Reachable states that show which assumptions of the theorems are needed. Each continues from
  one credit booking of 100 by company 1, whose limit is 100. No run here overrides a status.
*/
module Findings {
  import opened Wrappers
  import opened Sums
  import opened Companies
  import opened BookingRefs
  import opened Protocol
  import opened Conservation
  import opened VerifyLedger
  import opened OutstandingReport

  ghost predicate Reached(w: World) {
    exists steps :: Exec(Empty(), steps) == Some(w) && NoOverrides(steps)
  }

  lemma Start()
    ensures Reached(Empty())
  {
    assert Exec(Empty(), []) == Some(Empty()) && NoOverrides([]);
  }

  lemma Then(v: World, step: Step, w: World)
    requires Reached(v) && Enabled(v, step) && Apply(v, step) == w && !(step.Office? && step.act.OverrideStatus?)
    ensures Reached(w)
  {
    var steps :| Exec(Empty(), steps) == Some(v) && NoOverrides(steps);
    ExecStep(Empty(), steps, v, step, w);
    assert NoOverrides(steps + [step]);
  }

  // ── One booking ──────────────────────────────────────────────────────────────

  const NUMBER := RefNumber(2026, 1)

  function TheBooking(): Booking {
    Booking(Print(NUMBER), 1, Credit, Confirmed, 100, Some("S1"), None, 0)
  }

  /** A credit saga of company 1 at a program counter, the limit set, and the debt so far. */
  function Booking100(pc: SagaPc, debt: int): World {
    Empty().(accounts := map[1 := Company(100, 0, debt, 0)], sagas := [Saga(1, Credit, 100, pc)])
  }

  /** The booked world with its cancel requests, the debt left, and the rows written since. */
  function Cancelling(cancels: seq<Cancel>, debt: int, rows: seq<Row>): World {
    World(map[1 := Company(100, 0, debt, 0)], [TheBooking()], [Row(1, CreditUse, DirDebit, 100, Some(0), None)] + rows,
          map[2026 := 1], [NUMBER], [Saga(1, Credit, 100, Committed(0))], cancels)
  }

  lemma PricedRun()
    ensures Reached(Booking100(Priced, 0))
  {
    Start();
    var w1 := Empty().(accounts := map[1 := Company(0, 0, 0, 0)]);
    Then(Empty(), Office(Register(1)), w1);
    var w2 := Empty().(accounts := map[1 := Company(100, 0, 0, 0)]);
    Then(w1, Office(UpdateLimit(1, 100, 0, 0, false)), w2);
    Then(w2, StartBooking(1, Credit, 100), Booking100(Priced, 0));
  }

  lemma Booking100Step(pc: SagaPc, debt: int, act: SagaAct, pc': SagaPc, debt': int)
    requires SagaEnabled(Booking100(pc, debt), 0, act)
    requires !act.IssueRef? && !act.Commit?
    requires pc' == NextPc(Booking100(pc, debt), Saga(1, Credit, 100, pc), act)
    requires debt' == debt + DebtOf(Saga(1, Credit, 100, pc), act)
    ensures ApplySaga(Booking100(pc, debt), 0, act) == Booking100(pc', debt')
  {
    var v := Booking100(pc, debt);
    assert AddOutstanding(v.accounts, 1, debt' - debt) == map[1 := Company(100, 0, debt', 0)];
    assert v.sagas[0 := Saga(1, Credit, 100, pc')] == [Saga(1, Credit, 100, pc')];
  }

  lemma ThenSaga(pc: SagaPc, debt: int, act: SagaAct, pc': SagaPc, debt': int)
    requires Reached(Booking100(pc, debt)) && SagaEnabled(Booking100(pc, debt), 0, act)
    requires !act.IssueRef? && !act.Commit?
    requires pc' == NextPc(Booking100(pc, debt), Saga(1, Credit, 100, pc), act)
    requires debt' == debt + DebtOf(Saga(1, Credit, 100, pc), act)
    ensures Reached(Booking100(pc', debt'))
  {
    Booking100Step(pc, debt, act, pc', debt');
    Then(Booking100(pc, debt), SagaStep(0, act), Booking100(pc', debt'));
  }

  function Numbered(): World {
    Booking100(Persisting(Outcome(Confirmed, Some("S1"), false), NUMBER), 100).(counters := map[2026 := 1], issued := [NUMBER])
  }

  lemma ThenNumber(v: World)
    requires v == Booking100(Booked(Outcome(Confirmed, Some("S1"), false)), 100) && Reached(v)
    ensures Reached(Numbered())
  {
    assert AddOutstanding(v.accounts, 1, 0) == v.accounts;
    Then(v, SagaStep(0, IssueRef(2026)), Numbered());
  }

  lemma NumberedRun()
    ensures Reached(Numbered())
  {
    PricedRun();
    ThenSaga(Priced, 0, DeductCredit(true), Deducted, 100);
    ThenSaga(Deducted, 100, SupplierBooks(Answered(true, Some("S1"))), Booked(Outcome(Confirmed, Some("S1"), false)), 100);
    ThenNumber(Booking100(Booked(Outcome(Confirmed, Some("S1"), false)), 100));
  }

  lemma BookedRun()
    ensures Reached(Cancelling([], 100, []))
  {
    NumberedRun();
    assert ApplySaga(Numbered(), 0, Commit(0)) == Cancelling([], 100, []);
    Then(Numbered(), SagaStep(0, Commit(0)), Cancelling([], 100, []));
  }

  function Request(returned: bool, credited: int, logged: bool, pc: CancelPc): Cancel {
    Cancel(0, 1, returned, credited, logged, false, pc)
  }

  lemma ThenCancel(k: nat, act: CancelAct, cancels: seq<Cancel>, debt: int, next: seq<Cancel>, debt': int)
    requires k < |cancels| && cancels[k].booking == 0 && cancels[k].company == 1
    requires Reached(Cancelling(cancels, debt, []))
    requires !act.LogCancel? && !act.SaveCancel? && CancelEnabled(Cancelling(cancels, debt, []), k, act)
    requires next == cancels[k := NextCancel(TheBooking(), cancels[k], act)]
    requires debt' == debt - if act.CreditCancel? && act.applied then Refundable(TheBooking(), cancels[k].pc.fee) else 0
    ensures Reached(Cancelling(next, debt', []))
  {
    Then(Cancelling(cancels, debt, []), CancelStep(k, act), Cancelling(next, debt', []));
  }

  lemma Asking(cancels: seq<Cancel>, next: seq<Cancel>)
    requires Reached(Cancelling(cancels, 100, []))
    requires next == cancels + [Request(false, 0, false, Asked)]
    ensures Reached(Cancelling(next, 100, []))
  {
    Then(Cancelling(cancels, 100, []), StartCancel(0, 1), Cancelling(next, 100, []));
  }

  // ── What goes wrong ──────────────────────────────────────────────────────────

  /**
    Two cancel requests of one booking both get past the status check. If the supplier's call
    returns for both, creditBack runs twice and the debt goes below zero.
  */
  lemma DoubleReturnMakesDebtNegative() returns (w: World)
    ensures Reached(w) && Outstanding(w, 1) == -100
  {
    BookedRun();
    var asked := Request(false, 0, false, Asked);
    var accepted := Request(true, 0, false, Accepted(0, 100));
    var credited := Request(true, 100, false, RowDue(0, 100));
    var answers := SupplierCancels(Returned(true, 0, 100));
    var credits := CreditCancel(true, true);
    Asking([], [asked]);
    Asking([asked], [asked, asked]);
    ThenCancel(0, answers, [asked, asked], 100, [accepted, asked], 100);
    ThenCancel(1, answers, [accepted, asked], 100, [accepted, accepted], 100);
    ThenCancel(0, credits, [accepted, accepted], 100, [credited, accepted], 0);
    ThenCancel(1, credits, [credited, accepted], 0, [credited, credited], -100);
    w := Cancelling([credited, credited], -100, []);
  }

  /** If the last write of a cancellation fails, the outstanding report exceeds the stored debt. */
  lemma FailedSaveOverstatesReport() returns (w: World)
    ensures Reached(w) && Quiescent(w) && Outstanding(w, 1) == 0 && Shown(w, 1) == 100
  {
    BookedRun();
    var asked := Request(false, 0, false, Asked);
    var accepted := Request(true, 0, false, Accepted(0, 100));
    var credited := Request(true, 100, false, RowDue(0, 100));
    var row := Row(1, CreditRefund, DirCredit, 100, Some(0), None);
    Asking([], [asked]);
    ThenCancel(0, SupplierCancels(Returned(true, 0, 100)), [asked], 100, [accepted], 100);
    ThenCancel(0, CreditCancel(true, true), [accepted], 100, [credited], 0);
    var logged := Cancelling([Request(true, 100, true, SaveDue(0, 100))], 0, [row]);
    Then(Cancelling([credited], 0, []), CancelStep(0, LogCancel(true)), logged);
    w := Cancelling([Request(true, 100, true, Done)], 0, [row]);
    Then(logged, CancelStep(0, SaveCancel(false)), w);
    Append([], TheBooking(), ConfirmedBy(1));
    assert w.bookings == [] + [TheBooking()];
  }

  function Refunded(): World {
    Cancelling([], 100, []).(accounts := map[1 := Company(100, 40, 100, 0)],
                             ledger := Cancelling([], 100, []).ledger + [Row(1, CreditRefund, DirCredit, 40, Some(0), Some(40))])
  }

  lemma RefundedRun()
    ensures Reached(Refunded())
  {
    BookedRun();
    Then(Cancelling([], 100, []), Office(AdminRefund(0, 0, 40, true, true)), Refunded());
  }

  /** An administrator's refund writes a CREDIT_REFUND row but raises the wallet: assertion 1 then fails. */
  lemma AdminRefundBreaksAssertion1() returns (w: World)
    ensures Reached(w) && Quiescent(w) && Mismatched(w, 1)
  {
    RefundedRun();
    w := Refunded();
    var was := Cancelling([], 100, []).ledger;
    var row := Row(1, CreditRefund, DirCredit, 40, Some(0), Some(40));
    Append(was, row, UseBy(1));
    Append(was, row, RefundBy(1));
    Append([], was[0], UseBy(1));
    AllZero(was, RefundBy(1));
    assert was == [] + [was[0]];
  }

  /** Lowering the limit below the debt leaves the company over its ceiling, where getAvailableCredit clamps. */
  lemma LimitCutOverdraws() returns (w: World)
    ensures Reached(w) && 1 in w.accounts && w.accounts[1].Available() < 0
  {
    BookedRun();
    w := Cancelling([], 100, []).(accounts := map[1 := Company(60, 0, 100, 0)]);
    Then(Cancelling([], 100, []), Office(UpdateLimit(1, 60, 100, 0, false)), w);
  }
}
