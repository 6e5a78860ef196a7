/**
  When cancellations give back more than was charged. creditBack has no guard; this module finds
  the guard it would need: no booking is ever overpaid exactly when each credit given back fits in
  what its booking still owes.
*/
module Overpayment {
  import opened Wrappers
  import opened Sums
  import opened Companies
  import opened Protocol
  import opened Conservation
  import opened Debt

  /** What cancellations have given back on a booking. */
  function GivenOn(w: World, b: nat): int {
    Sum(w.cancels, CreditedOn(b))
  }

  predicate NoneOverpaid(w: World) {
    forall b :: 0 <= b < |w.bookings| && w.bookings[b].paymentMethod == Credit ==> GivenOn(w, b) <= w.bookings[b].totalAmount
  }

  /** The guard: what is about to be given back is no more than what the booking still owes. */
  predicate Fits(w: World, step: Step)
    requires Enabled(w, step)
  {
    step.CancelStep? && step.cancelAct.CreditCancel? && step.cancelAct.applied ==>
      var x := w.cancels[step.cancel];
      var amount := Refundable(w.bookings[x.booking], x.pc.fee);
      amount == 0 || amount <= w.bookings[x.booking].totalAmount - GivenOn(w, x.booking)
  }

  /** No booking is overpaid at the end of the run or before. */
  predicate NeverOverpaid(steps: seq<Step>)
    requires Exec(Empty(), steps).Some?
  {
    NoneOverpaid(Exec(Empty(), steps).value) && (steps != [] ==> NeverOverpaid(steps[..|steps| - 1]))
  }

  predicate AllFit(steps: seq<Step>)
    requires Exec(Empty(), steps).Some?
  {
    steps != [] ==> AllFit(steps[..|steps| - 1]) && Fits(Before(Empty(), steps), steps[|steps| - 1])
  }

  // ── One step ─────────────────────────────────────────────────────────────────

  /** What a step gives back on booking b. */
  function Gives(w: World, step: Step, b: nat): int
    requires Enabled(w, step)
  {
    if step.CancelStep? && w.cancels[step.cancel].booking == b then CreditedNow(w, step.cancel, step.cancelAct) else 0
  }

  lemma CreditedMoves(w: World, k: nat, act: CancelAct)
    requires CancelsOk(w) && k < |w.cancels| && CancelEnabled(w, k, act)
    ensures var x := w.cancels[k];
      var next := NextCancel(w.bookings[x.booking], x, act);
      next.booking == x.booking && next.credited == x.credited + CreditedNow(w, k, act)
  {
    assert CancelOk(w.bookings, w.cancels[k]);
  }

  lemma GivenMoves(w: World, step: Step, b: nat)
    requires CancelsOk(w) && Enabled(w, step)
    ensures GivenOn(Apply(w, step), b) == GivenOn(w, b) + Gives(w, step, b)
  {
    CancelsMove(w, step);
    match step
    case StartCancel(d, c) => Append(w.cancels, NewCancel(d, c), CreditedOn(b));
    case CancelStep(k, act) =>
      CreditedMoves(w, k, act);
      Update(w.cancels, k, NextCancel(w.bookings[w.cancels[k].booking], w.cancels[k], act), CreditedOn(b));
    case _ =>
  }

  /** Nothing has been given back on a booking that does not exist yet. */
  lemma NothingGivenYet(w: World, b: nat)
    requires CancelsOk(w) && b >= |w.bookings|
    ensures GivenOn(w, b) == 0
  {
    forall k | 0 <= k < |w.cancels|
      ensures CreditedOn(b)(w.cancels[k]) == 0
    {
      assert CancelOk(w.bookings, w.cancels[k]);
    }
    AllZero(w.cancels, CreditedOn(b));
  }

  /** A step that does not fit overpays its booking. */
  lemma Overpays(w: World, step: Step)
    requires WellFormed(w) && Enabled(w, step) && !Fits(w, step)
    ensures !NoneOverpaid(Apply(w, step))
  {
    var b := w.cancels[step.cancel].booking;
    GivenMoves(w, step, b);
    Grows(w, step);
    assert Apply(w, step).bookings[b].paymentMethod == Credit;
  }

  lemma KeepsCovered(w: World, step: Step, b: nat)
    requires WellFormed(w) && Enabled(w, step) && Fits(w, step) && NoneOverpaid(w)
    requires b < |Apply(w, step).bookings| && Apply(w, step).bookings[b].paymentMethod == Credit
    ensures GivenOn(Apply(w, step), b) <= Apply(w, step).bookings[b].totalAmount
  {
    GivenMoves(w, step, b);
    Grows(w, step);
    BookingsStep(w, step);
    if b >= |w.bookings| {
      NothingGivenYet(w, b);
      assert BookingOk(Apply(w, step).accounts.Keys, Apply(w, step).bookings[b]);
    }
  }

  lemma StepFits(w: World, step: Step)
    requires WellFormed(w) && NoneOverpaid(w) && Enabled(w, step)
    ensures NoneOverpaid(Apply(w, step)) <==> Fits(w, step)
  {
    if Fits(w, step) {
      forall b | 0 <= b < |Apply(w, step).bookings| && Apply(w, step).bookings[b].paymentMethod == Credit
        ensures GivenOn(Apply(w, step), b) <= Apply(w, step).bookings[b].totalAmount
      {
        KeepsCovered(w, step, b);
      }
    } else {
      Overpays(w, step);
    }
  }

  // ── Whole runs ───────────────────────────────────────────────────────────────

  /** Over any run, no booking is ever overpaid exactly when every credit given back fits. */
  lemma {:induction false} NeverOverpaidExactly(steps: seq<Step>)
    requires Exec(Empty(), steps).Some?
    ensures NeverOverpaid(steps) <==> AllFit(steps)
  {
    if steps != [] {
      var n := |steps| - 1;
      var v := Before(Empty(), steps);
      NeverOverpaidExactly(steps[..n]);
      Invariant(steps[..n], v, 0);
      if NeverOverpaid(steps[..n]) {
        StepFits(v, steps[n]);
      }
    }
  }

  /** And then, with no assumption about the supplier, no debt goes below what is held and stranded. */
  lemma {:induction false} FittingKeepsDebt(steps: seq<Step>, w: World, c: CompanyId)
    requires Exec(Empty(), steps) == Some(w) && AllFit(steps)
    ensures Outstanding(w, c) >= Held(w, c) + StrandedSum(w, c) >= 0
  {
    NeverOverpaidExactly(steps);
    Invariant(steps, w, c);
    DebtIsOwed(steps, w, c);
    HeldNonNegative(w, c);
    SumToNonNegative(|w.bookings|, OwedOn(w, c));
  }

  /** An honest supplier makes every credit fit. */
  lemma {:induction false} HonestFits(steps: seq<Step>, w: World)
    requires Exec(Empty(), steps) == Some(w) && HonestRun(steps)
    ensures AllFit(steps)
  {
    if steps != [] {
      var n := |steps| - 1;
      var v := Before(Empty(), steps);
      HonestFits(steps[..n], v);
      HonestInvariant(steps, w);
      if !Fits(v, steps[n]) {
        Invariant(steps[..n], v, 0);
        Overpays(v, steps[n]);
        var b :| 0 <= b < |w.bookings| && w.bookings[b].paymentMethod == Credit && GivenOn(w, b) > w.bookings[b].totalAmount;
        OwedNonNegative(w, b);
      }
    }
  }

  // ── What is kept of a booking ────────────────────────────────────────────────

  /** The request has got past creditBack. */
  predicate Past(x: Cancel) {
    x.pc.RowDue? || x.pc.SaveDue? || x.pc == Done
  }

  lemma PastStays(w: World, step: Step, k: nat)
    requires CancelsOk(w) && Enabled(w, step) && k < |w.cancels| && Past(w.cancels[k])
    ensures k < |Apply(w, step).cancels| && Past(Apply(w, step).cancels[k])
    ensures Apply(w, step).cancels[k].booking == w.cancels[k].booking && Apply(w, step).cancels[k].credited == w.cancels[k].credited
  {
    CancelsMove(w, step);
  }

  lemma {:induction false} PastForGood(steps: seq<Step>, w: World, more: seq<Step>, v: World, k: nat)
    requires Exec(Empty(), steps) == Some(w) && Exec(w, more) == Some(v) && k < |w.cancels| && Past(w.cancels[k])
    requires w.cancels[k].booking < |w.bookings|
    ensures k < |v.cancels| && Past(v.cancels[k])
    ensures v.cancels[k].booking == w.cancels[k].booking && v.cancels[k].credited == w.cancels[k].credited
    ensures w.cancels[k].booking < |v.bookings|
    ensures v.bookings[w.cancels[k].booking].totalAmount == w.bookings[w.cancels[k].booking].totalAmount
  {
    if more != [] {
      var n := |more| - 1;
      var u := Before(w, more);
      PastForGood(steps, w, more[..n], u, k);
      ExecConcat(Empty(), steps, w, more[..n], u);
      Invariant(steps + more[..n], u, 0);
      PastStays(u, more[n], k);
      Grows(u, more[n]);
    }
  }

  /**
    Once the creditBack of a request has taken effect on a credit booking, exactly the fee, or the whole
    total if that is less, stays uncredited by that request, through every continuation of the run.
  */
  lemma {:induction false} FeeIsKept(steps: seq<Step>, u: World, k: nat, acked: bool, more: seq<Step>, v: World)
    requires Exec(Empty(), steps) == Some(u) && k < |u.cancels| && u.cancels[k].pc.Accepted?
    requires u.cancels[k].booking < |u.bookings| && u.bookings[u.cancels[k].booking].paymentMethod == Credit
    requires Exec(ApplyCancel(u, k, CreditCancel(true, acked)), more) == Some(v)
    ensures k < |v.cancels| && u.cancels[k].booking < |v.bookings|
    ensures var fee, total := u.cancels[k].pc.fee, u.bookings[u.cancels[k].booking].totalAmount;
      v.bookings[u.cancels[k].booking].totalAmount - v.cancels[k].credited == if fee < total then fee else total
  {
    var step := CancelStep(k, CreditCancel(true, acked));
    var w := ApplyCancel(u, k, CreditCancel(true, acked));
    ExecStep(Empty(), steps, u, step, w);
    RefundableExactly(u.bookings[u.cancels[k].booking], u.cancels[k].pc.fee);
    assert w.cancels[k].credited == Refundable(u.bookings[u.cancels[k].booking], u.cancels[k].pc.fee) && Past(w.cancels[k]);
    PastForGood(steps + [step], w, more, v, k);
  }
}
