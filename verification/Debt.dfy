/** When the debt of an agency stays non-negative, and what it is made of. */
module Debt {
  import opened Wrappers
  import opened Sums
  import opened Companies
  import opened Protocol
  import opened Conservation

  // ── What is still owed on each booking ───────────────────────────────────────

  function CreditedOn(b: nat): Cancel -> int {
    (x: Cancel) => if x.booking == b then x.credited else 0
  }

  predicate CreditOf(b: Booking, c: CompanyId) {
    b.company == c && b.paymentMethod == Credit
  }

  /** What cancellations have given back on booking b of company c. */
  function GivenBack(bookings: seq<Booking>, cancels: seq<Cancel>, c: CompanyId): nat -> int {
    (b: nat) => if b < |bookings| && CreditOf(bookings[b], c) then Sum(cancels, CreditedOn(b)) else 0
  }

  /** The part of its total that has not been given back. */
  function OwedOn(w: World, c: CompanyId): nat -> int {
    (b: nat) =>
      if b < |w.bookings| && CreditOf(w.bookings[b], c) then w.bookings[b].totalAmount - Sum(w.cancels, CreditedOn(b))
      else 0
  }

  function BilledOn(bookings: seq<Booking>, c: CompanyId): nat -> int {
    (b: nat) => if b < |bookings| then BilledBy(c)(bookings[b]) else 0
  }

  /** Summing per booking what each request gave back is summing over the requests. */
  lemma {:induction false} Exchange(bookings: seq<Booking>, cancels: seq<Cancel>, c: CompanyId)
    requires forall k :: 0 <= k < |cancels| ==> CancelOk(bookings, cancels[k])
    ensures SumTo(|bookings|, GivenBack(bookings, cancels, c)) == Sum(cancels, CreditedBy(c))
  {
    var n := |bookings|;
    if cancels == [] {
      SumToPoint(n, GivenBack(bookings, [], c), n);
    } else {
      var last := |cancels| - 1;
      var x := cancels[last];
      var point := (b: nat) => if b == x.booking && CreditOf(bookings[x.booking], c) then x.credited else 0;
      Exchange(bookings, cancels[..last], c);
      SumToSplit(n, GivenBack(bookings, cancels, c), GivenBack(bookings, cancels[..last], c), point);
      SumToPoint(n, point, x.booking);
    }
  }

  /** The debt is the credit held or stranded plus what is owed on each credit booking, after every run. */
  lemma {:induction false} DebtIsOwed(steps: seq<Step>, w: World, c: CompanyId)
    requires Exec(Empty(), steps) == Some(w)
    ensures Outstanding(w, c) == Held(w, c) + StrandedSum(w, c) + SumTo(|w.bookings|, OwedOn(w, c))
  {
    Invariant(steps, w, c);
    Exchange(w.bookings, w.cancels, c);
    SumToSum(w.bookings, BilledBy(c), BilledOn(w.bookings, c));
    SumToSplit(|w.bookings|, BilledOn(w.bookings, c), OwedOn(w, c), GivenBack(w.bookings, w.cancels, c));
  }

  // ── The supplier's contract ──────────────────────────────────────────────────

  /** The supplier charges no negative fee, and its cancel call returns at most once for each of its references. */
  predicate Honest(w: World, step: Step)
    requires Enabled(w, step)
  {
    step.CancelStep? && step.cancelAct.SupplierCancels? && step.cancelAct.answer.Returned? ==>
      && step.cancelAct.answer.fee >= 0
      && forall j :: 0 <= j < |w.cancels| && w.cancels[j].returned && w.cancels[j].booking < |w.bookings| ==>
           w.bookings[w.cancels[j].booking].supplierRef != w.bookings[w.cancels[step.cancel].booking].supplierRef
  }

  predicate HonestRun(steps: seq<Step>)
    requires Exec(Empty(), steps).Some?
  {
    steps != [] ==>
      HonestRun(steps[..|steps| - 1]) && Honest(Before(Empty(), steps), steps[|steps| - 1])
  }

  predicate Bounded(bookings: seq<Booking>, x: Cancel) {
    && x.booking < |bookings|
    && (x.credited > 0 ==> x.returned && x.credited <= bookings[x.booking].totalAmount)
    && (x.pc.Accepted? ==> x.pc.fee >= 0)
  }

  predicate AllBounded(w: World) {
    forall k :: 0 <= k < |w.cancels| ==> Bounded(w.bookings, w.cancels[k])
  }

  predicate NoTwoReturned(w: World) {
    forall j, k :: 0 <= j < k < |w.cancels| && w.cancels[j].returned && w.cancels[k].returned ==>
      w.cancels[j].booking != w.cancels[k].booking
  }

  /** At most one request per booking got past the supplier, and it gave back no more than the total. */
  predicate OnceEach(w: World) {
    AllBounded(w) && NoTwoReturned(w)
  }

  lemma BoundedStep(w: World, step: Step)
    requires WellFormed(w) && AllBounded(w) && Enabled(w, step) && Honest(w, step)
    ensures AllBounded(Apply(w, step))
  {
    Grows(w, step);
    CancelsMove(w, step);
    if step.CancelStep? {
      var x := w.cancels[step.cancel];
      assert CancelOk(w.bookings, x) && Bounded(w.bookings, x) && BookingOk(w.accounts.Keys, w.bookings[x.booking]);
    }
  }

  lemma NoTwoReturnedStep(w: World, step: Step)
    requires CancelsOk(w) && NoTwoReturned(w) && Enabled(w, step) && Honest(w, step)
    ensures NoTwoReturned(Apply(w, step))
  {
    CancelsMove(w, step);
    if step.CancelStep? {
      assert CancelOk(w.bookings, w.cancels[step.cancel]);
    }
  }

  lemma {:induction false} HonestInvariant(steps: seq<Step>, w: World)
    requires Exec(Empty(), steps) == Some(w) && HonestRun(steps)
    ensures WellFormed(w) && OnceEach(w)
  {
    Invariant(steps, w, 0);
    if steps != [] {
      var v := Before(Empty(), steps);
      HonestInvariant(steps[..|steps| - 1], v);
      BoundedStep(v, steps[|steps| - 1]);
      NoTwoReturnedStep(v, steps[|steps| - 1]);
    }
  }

  lemma OwedNonNegative(w: World, b: nat)
    requires WellFormed(w) && OnceEach(w) && b < |w.bookings| && w.bookings[b].paymentMethod == Credit
    ensures 0 <= Sum(w.cancels, CreditedOn(b)) <= w.bookings[b].totalAmount
  {
    var f := CreditedOn(b);
    assert BookingOk(w.accounts.Keys, w.bookings[b]);
    forall k | 0 <= k < |w.cancels|
      ensures 0 <= f(w.cancels[k]) <= w.bookings[b].totalAmount
    {
      assert CancelOk(w.bookings, w.cancels[k]) && Bounded(w.bookings, w.cancels[k]);
    }
    forall j, k | 0 <= j < k < |w.cancels|
      ensures f(w.cancels[j]) == 0 || f(w.cancels[k]) == 0
    {
      assert CancelOk(w.bookings, w.cancels[j]) && CancelOk(w.bookings, w.cancels[k]);
    }
    NonNegative(w.cancels, f);
    AtMostOne(w.cancels, f, w.bookings[b].totalAmount);
  }

  lemma HeldNonNegative(w: World, c: CompanyId)
    requires SagasOk(w)
    ensures Held(w, c) >= 0 && StrandedSum(w, c) >= 0
  {
    forall i | 0 <= i < |w.sagas|
      ensures HeldBy(c)(w.sagas[i]) >= 0 && StrandedBy(c)(w.sagas[i]) >= 0
    {
      assert SagaOk(w.accounts.Keys, w.sagas[i]);
    }
    NonNegative(w.sagas, HeldBy(c));
    NonNegative(w.sagas, StrandedBy(c));
  }

  /** creditBack is an unguarded decrement, yet with such a supplier no company's debt goes below zero. */
  lemma {:induction false} DebtNonNegative(steps: seq<Step>, w: World, c: CompanyId)
    requires Exec(Empty(), steps) == Some(w) && HonestRun(steps)
    ensures Outstanding(w, c) >= 0
  {
    DebtIsOwed(steps, w, c);
    HonestInvariant(steps, w);
    HeldNonNegative(w, c);
    forall b: nat | b < |w.bookings|
      ensures OwedOn(w, c)(b) >= 0
    {
      if CreditOf(w.bookings[b], c) {
        OwedNonNegative(w, b);
      }
    }
    SumToNonNegative(|w.bookings|, OwedOn(w, c));
  }

  // ── Exactly when the debt stays non-negative ─────────────────────────────────

  /** What a step takes off the debt of c: a compensation or a cancellation's credit that took effect. */
  function TakenOff(w: World, step: Step, c: CompanyId): int
    requires Enabled(w, step)
  {
    match step
    case SagaStep(i, GiveBack(applied)) => if applied && w.sagas[i].company == c then w.sagas[i].amount else 0
    case CancelStep(k, act) => if w.cancels[k].company == c then CreditedNow(w, k, act) else 0
    case _ => 0
  }

  /** The debt is non-negative at the end of the run and before. */
  predicate NeverNegative(steps: seq<Step>, c: CompanyId)
    requires Exec(Empty(), steps).Some?
  {
    Outstanding(Exec(Empty(), steps).value, c) >= 0 && (steps != [] ==> NeverNegative(steps[..|steps| - 1], c))
  }

  /** The guard creditBack lacks: it never takes off more than the debt there is. */
  predicate AllCovered(steps: seq<Step>, c: CompanyId)
    requires Exec(Empty(), steps).Some?
  {
    steps != [] ==>
      var v := Before(Empty(), steps);
      AllCovered(steps[..|steps| - 1], c) && TakenOff(v, steps[|steps| - 1], c) <= Outstanding(v, c)
  }

  /** Apart from what it takes off, a step only raises a debt. */
  lemma SagaDebt(w: World, i: nat, act: SagaAct, v: World, c: CompanyId)
    requires SagasOk(w) && i < |w.sagas| && SagaEnabled(w, i, act) && v == ApplySaga(w, i, act)
    ensures Outstanding(v, c) >= Outstanding(w, c) - TakenOff(w, SagaStep(i, act), c)
    ensures TakenOff(w, SagaStep(i, act), c) > 0 ==> Outstanding(v, c) == Outstanding(w, c) - TakenOff(w, SagaStep(i, act), c)
  {
    assert SagaOk(w.accounts.Keys, w.sagas[i]);
    SagaAccounts(w, i, act);
    DebtAdded(w, w.sagas[i].company, DebtOf(w.sagas[i], act), v, c);
  }

  lemma CancelDebt(w: World, k: nat, act: CancelAct, v: World, c: CompanyId)
    requires WellFormed(w) && k < |w.cancels| && CancelEnabled(w, k, act) && v == ApplyCancel(w, k, act)
    ensures Outstanding(v, c) == Outstanding(w, c) - TakenOff(w, CancelStep(k, act), c)
  {
    var x := w.cancels[k];
    assert CancelOk(w.bookings, x) && BookingOk(w.accounts.Keys, w.bookings[x.booking]);
    CancelAccounts(w, k, act);
    DebtAdded(w, x.company, -CreditedNow(w, k, act), v, c);
  }

  lemma StepCovered(w: World, step: Step, c: CompanyId)
    requires WellFormed(w) && Enabled(w, step) && Outstanding(w, c) >= 0
    ensures Outstanding(Apply(w, step), c) >= 0 <==> TakenOff(w, step, c) <= Outstanding(w, c)
  {
    match step
    case SagaStep(i, act) => SagaDebt(w, i, act, Apply(w, step), c);
    case CancelStep(k, act) => CancelDebt(w, k, act, Apply(w, step), c);
    case Office(act) => OfficeKeepsDebt(w, act, Apply(w, step), c);
    case _ =>
  }

  /**
    Over any run, with any supplier, a company's debt never goes below zero exactly when every
    compensation and every cancellation's credit takes off no more than the debt of that moment.
  */
  lemma {:induction false} NeverNegativeExactly(steps: seq<Step>, c: CompanyId)
    requires Exec(Empty(), steps).Some?
    ensures NeverNegative(steps, c) <==> AllCovered(steps, c)
  {
    if steps != [] {
      var n := |steps| - 1;
      var v := Before(Empty(), steps);
      NeverNegativeExactly(steps[..n], c);
      Invariant(steps[..n], v, c);
      if NeverNegative(steps[..n], c) {
        StepCovered(v, steps[n], c);
      }
    }
  }
}
