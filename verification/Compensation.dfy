/**
  The compensating action undoes the deduction, whatever ran in between. If a saga ends
  with its credit given back, the same run without that saga's steps is possible and
  leaves the same database.
*/
module Compensation {
  import opened Wrappers
  import opened Sums
  import opened Companies
  import opened Protocol
  import opened Conservation

  // ── Erasing a saga from a run ────────────────────────────────────────────────

  /** A step of saga i, or a refusal: with less credit held, another saga might not be refused. */
  predicate Dropped(step: Step, i: nat) {
    step.SagaStep? && (step.saga == i || step.sagaAct.RefuseCredit?)
  }

  function Without(steps: seq<Step>, i: nat): seq<Step> {
    if steps == [] then []
    else
      var n := |steps| - 1;
      Without(steps[..n], i) + if Dropped(steps[n], i) then [] else [steps[n]]
  }

  /** The saga has not been confirmed by the supplier, and its credit is not stranded. */
  predicate Early(pc: SagaPc) {
    pc.Priced? || pc.Deducted? || pc.Compensating? || pc.Compensated? || pc.Refused?
  }

  /** The credit such a saga holds. */
  function Hold(s: Saga): int {
    if Holding(s) then s.amount else 0
  }

  /** The saga in the erased run. */
  predicate SameSaga(s: Saga, t: Saga) {
    t == s || (s.pc.Refused? && t == s.(pc := Priced))
  }

  /** u is the world of the full run, v that of the run without saga i. */
  predicate Twin(u: World, v: World, i: nat) {
    && |u.sagas| == |v.sagas|
    && v.bookings == u.bookings && v.ledger == u.ledger && v.cancels == u.cancels
    && v.counters == u.counters && v.issued == u.issued
    && (forall j :: 0 <= j < |u.sagas| && j != i ==> SameSaga(u.sagas[j], v.sagas[j]))
    && (if i < |u.sagas| then
          && v.sagas[i] == u.sagas[i].(pc := Priced)
          && u.accounts == AddOutstanding(v.accounts, u.sagas[i].company, Hold(u.sagas[i]))
        else u.accounts == v.accounts)
  }

  // ── Debt added to one company commutes with every other update ───────────────

  lemma Undo(m: Accounts, c: CompanyId, x: int, y: int)
    ensures AddOutstanding(AddOutstanding(m, c, x), c, y) == AddOutstanding(m, c, x + y)
    ensures AddOutstanding(m, c, 0) == m
  {
  }

  lemma DebtCommutes(m: Accounts, c: CompanyId, x: int, d: CompanyId, y: int)
    ensures AddOutstanding(AddOutstanding(m, c, x), d, y) == AddOutstanding(AddOutstanding(m, d, y), c, x)
  {
    assert AddOutstanding(AddOutstanding(m, c, x), d, y).Keys == m.Keys;
  }

  lemma OfficeCommutes(u: World, v: World, act: OfficeAct, c: CompanyId, x: int)
    requires v.bookings == u.bookings && u.accounts == AddOutstanding(v.accounts, c, x)
    requires OfficeEnabled(u, act) && (act.Register? ==> act.company != c || x == 0)
    ensures OfficeEnabled(v, act) && OfficeRows(u, act) == OfficeRows(v, act) && OfficeBookings(u, act) == OfficeBookings(v, act)
    ensures OfficeAccounts(u, act) == AddOutstanding(OfficeAccounts(v, act), c, x)
  {
  }

  // ── One step ─────────────────────────────────────────────────────────────────

  lemma EarlyBefore(w: World, step: Step, i: nat)
    requires Enabled(w, step) && i < |w.sagas| && Early(Apply(w, step).sagas[i].pc)
    ensures Early(w.sagas[i].pc)
  {
  }

  lemma OwnStep(u: World, v: World, i: nat, act: SagaAct)
    requires Twin(u, v, i) && SagasOk(u) && i < |u.sagas| && SagaEnabled(u, i, act)
    requires Early(ApplySaga(u, i, act).sagas[i].pc)
    ensures Twin(ApplySaga(u, i, act), v, i)
  {
    var s := u.sagas[i];
    assert SagaOk(u.accounts.Keys, s);
    Undo(v.accounts, s.company, Hold(s), DebtOf(s, act));
  }

  lemma OtherSagaStep(u: World, v: World, i: nat, j: nat, act: SagaAct)
    requires Twin(u, v, i) && SagasOk(u) && j < |u.sagas| && j != i && SagaEnabled(u, j, act)
    ensures act.RefuseCredit? ==> Twin(ApplySaga(u, j, act), v, i)
    ensures !act.RefuseCredit? ==> SagaEnabled(v, j, act) && Twin(ApplySaga(u, j, act), ApplySaga(v, j, act), i)
  {
    var s := u.sagas[j];
    assert SameSaga(s, v.sagas[j]);
    if i < |u.sagas| {
      assert SagaOk(u.accounts.Keys, u.sagas[i]);
      DebtCommutes(v.accounts, u.sagas[i].company, Hold(u.sagas[i]), s.company, DebtOf(s, act));
    }
    Undo(u.accounts, s.company, 0, 0);
  }

  lemma CancelTwin(u: World, v: World, i: nat, k: nat, act: CancelAct)
    requires Twin(u, v, i) && k < |u.cancels| && CancelEnabled(u, k, act)
    ensures CancelEnabled(v, k, act) && Twin(ApplyCancel(u, k, act), ApplyCancel(v, k, act), i)
  {
    if act.CreditCancel? && i < |u.sagas| {
      var x := u.cancels[k];
      var amount := if act.applied then -Refundable(u.bookings[x.booking], x.pc.fee) else 0;
      DebtCommutes(v.accounts, u.sagas[i].company, Hold(u.sagas[i]), x.company, amount);
    }
  }

  lemma OfficeTwin(u: World, v: World, i: nat, act: OfficeAct)
    requires Twin(u, v, i) && SagasOk(u) && OfficeEnabled(u, act)
    ensures OfficeEnabled(v, act) && Twin(ApplyOffice(u, act), ApplyOffice(v, act), i)
  {
    if i < |u.sagas| {
      assert SagaOk(u.accounts.Keys, u.sagas[i]);
      OfficeCommutes(u, v, act, u.sagas[i].company, Hold(u.sagas[i]));
    }
  }

  lemma TwinStep(u: World, v: World, i: nat, step: Step)
    requires Twin(u, v, i) && SagasOk(u) && Enabled(u, step)
    requires i < |Apply(u, step).sagas| ==> Early(Apply(u, step).sagas[i].pc)
    ensures Dropped(step, i) ==> Twin(Apply(u, step), v, i)
    ensures !Dropped(step, i) ==> Enabled(v, step) && Twin(Apply(u, step), Apply(v, step), i)
  {
    match step
    case StartBooking(c, m, total) =>
      Undo(u.accounts, c, 0, 0);
    case SagaStep(j, act) =>
      if j == i {
        OwnStep(u, v, i, act);
      } else {
        OtherSagaStep(u, v, i, j, act);
      }
    case StartCancel(b, c) =>
    case CancelStep(k, act) => CancelTwin(u, v, i, k, act);
    case Office(act) => OfficeTwin(u, v, i, act);
  }

  // ── Whole runs ───────────────────────────────────────────────────────────────

  lemma {:induction false} TwinRun(steps: seq<Step>, u: World, i: nat)
    requires Exec(Empty(), steps) == Some(u)
    requires i < |u.sagas| ==> Early(u.sagas[i].pc)
    ensures Exec(Empty(), Without(steps, i)).Some? && Twin(u, Exec(Empty(), Without(steps, i)).value, i)
  {
    if steps != [] {
      var n := |steps| - 1;
      var w := Before(Empty(), steps);
      if i < |w.sagas| {
        EarlyBefore(w, steps[n], i);
      }
      TwinRun(steps[..n], w, i);
      Invariant(steps[..n], w, 0);
      var rest := Without(steps[..n], i);
      var v := Exec(Empty(), rest).value;
      TwinStep(w, v, i, steps[n]);
      if Dropped(steps[n], i) {
        assert Without(steps, i) == rest;
      } else {
        ExecStep(Empty(), rest, v, steps[n], Apply(v, steps[n]));
      }
    }
  }

  /** One saga that failed and was compensated leaves no trace in the database, whatever ran meanwhile. */
  lemma {:induction false} FailedSagaLeavesNoTrace(steps: seq<Step>, w: World, i: nat)
    requires Exec(Empty(), steps) == Some(w) && i < |w.sagas|
    requires w.sagas[i].pc == Compensated || w.sagas[i].pc == Refused
    ensures var without := Exec(Empty(), Without(steps, i));
      without.Some? && SameDatabase(w, without.value)
  {
    TwinRun(steps, w, i);
    Undo(Exec(Empty(), Without(steps, i)).value.accounts, w.sagas[i].company, 0, 0);
  }

  // ── All failed sagas at once ─────────────────────────────────────────────────

  /** The sagas that were refused, or compensated. */
  function Failures(w: World): set<nat> {
    set i: nat | i < |w.sagas| && (w.sagas[i].pc == Compensated || w.sagas[i].pc == Refused)
  }

  predicate Erased(step: Step, gone: set<nat>) {
    step.SagaStep? && (step.saga in gone || step.sagaAct.RefuseCredit?)
  }

  /** The run without the steps of these sagas, and without any refusal. */
  function WithoutAll(steps: seq<Step>, gone: set<nat>): seq<Step> {
    if steps == [] then []
    else
      var n := |steps| - 1;
      WithoutAll(steps[..n], gone) + if Erased(steps[n], gone) then [] else [steps[n]]
  }

  lemma {:induction false} EraseOneMore(steps: seq<Step>, gone: set<nat>, i: nat)
    ensures Without(WithoutAll(steps, gone), i) == WithoutAll(steps, gone + {i})
  {
    if steps != [] {
      var n := |steps| - 1;
      var rest := WithoutAll(steps[..n], gone);
      EraseOneMore(steps[..n], gone, i);
      if Erased(steps[n], gone) {
        assert rest + [] == rest;
      } else {
        assert (rest + [steps[n]])[..|rest|] == rest;
      }
    }
  }

  /** A saga that was never started has no steps. */
  lemma {:induction false} EraseUnknown(steps: seq<Step>, w: World, i: nat)
    requires Exec(Empty(), steps) == Some(w) && i >= |w.sagas|
    ensures Without(steps, i) == WithoutAll(steps, {})
  {
    if steps != [] {
      var v := Before(Empty(), steps);
      EraseUnknown(steps[..|steps| - 1], v, i);
    }
  }

  /** The stored part of two worlds is the same. */
  predicate SameDatabase(w: World, v: World) {
    && v.accounts == w.accounts && v.bookings == w.bookings && v.ledger == w.ledger && v.cancels == w.cancels
    && v.counters == w.counters && v.issued == w.issued
  }

  /** Erasing one saga that holds nothing. */
  lemma EraseIdle(steps: seq<Step>, w: World, i: nat, v: World)
    requires Exec(Empty(), steps) == Some(w)
    requires i < |w.sagas| ==> w.sagas[i].pc.Priced? || w.sagas[i].pc.Compensated? || w.sagas[i].pc.Refused?
    requires Exec(Empty(), Without(steps, i)).Some? ==> v == Exec(Empty(), Without(steps, i)).value
    ensures Exec(Empty(), Without(steps, i)) == Some(v) && SameDatabase(w, v) && |v.sagas| == |w.sagas|
    ensures forall j :: 0 <= j < |w.sagas| && j != i ==> SameSaga(w.sagas[j], v.sagas[j])
    ensures i < |w.sagas| ==> v.sagas[i] == w.sagas[i].(pc := Priced)
  {
    TwinRun(steps, w, i);
    if i < |w.sagas| {
      Undo(v.accounts, w.sagas[i].company, 0, 0);
    }
  }

  /** Any set of failed sagas can be erased together. */
  lemma {:induction false} EraseFailures(steps: seq<Step>, w: World, gone: set<nat>) returns (v: World)
    requires Exec(Empty(), steps) == Some(w) && gone <= Failures(w)
    ensures Exec(Empty(), WithoutAll(steps, gone)) == Some(v) && SameDatabase(w, v) && |v.sagas| == |w.sagas|
    ensures forall j :: 0 <= j < |w.sagas| && j !in gone ==> SameSaga(w.sagas[j], v.sagas[j])
    decreases gone
  {
    if gone == {} {
      EraseUnknown(steps, w, |w.sagas|);
      TwinRun(steps, w, |w.sagas|);
      v := Exec(Empty(), Without(steps, |w.sagas|)).value;
      EraseIdle(steps, w, |w.sagas|, v);
    } else {
      var i :| i in gone;
      var u := EraseFailures(steps, w, gone - {i});
      assert SameSaga(w.sagas[i], u.sagas[i]);
      EraseOneMore(steps, gone - {i}, i);
      assert gone - {i} + {i} == gone;
      TwinRun(WithoutAll(steps, gone - {i}), u, i);
      v := Exec(Empty(), WithoutAll(steps, gone)).value;
      EraseIdle(WithoutAll(steps, gone - {i}), u, i, v);
    }
  }

  /**
    Erasing every refused and compensated saga at once, with all refusals, leaves the same database;
    the sagas that remain are where they were.
  */
  lemma {:induction false} FailuresLeaveNoTrace(steps: seq<Step>, w: World)
    requires Exec(Empty(), steps) == Some(w)
    ensures var without := Exec(Empty(), WithoutAll(steps, Failures(w)));
      && without.Some? && SameDatabase(w, without.value)
      && |without.value.sagas| == |w.sagas|
      && forall j :: 0 <= j < |w.sagas| && j !in Failures(w) ==> without.value.sagas[j] == w.sagas[j]
  {
    var v := EraseFailures(steps, w, Failures(w));
  }

  // ── All sagas ended ──────────────────────────────────────────────────────────

  /** No booking request is in flight, and every rollback and transaction took effect. */
  predicate Settled(w: World) {
    forall i :: 0 <= i < |w.sagas| ==>
      !Holding(w.sagas[i]) && !w.sagas[i].pc.Stranded?
  }

  /** Then the debt is what the committed sagas charged less what cancellations gave back. */
  lemma {:induction false} OnlyCommittedCount(steps: seq<Step>, w: World, c: CompanyId)
    requires Exec(Empty(), steps) == Some(w) && Settled(w)
    ensures Outstanding(w, c) == Sum(w.sagas, CommittedBy(c)) - Credited(w, c)
  {
    Invariant(steps, w, c);
    AllZero(w.sagas, HeldBy(c));
    AllZero(w.sagas, StrandedBy(c));
  }
}
