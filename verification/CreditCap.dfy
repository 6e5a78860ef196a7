/** Concurrent bookings never jointly exceed the credit of a company. */
module CreditCap {
  import opened Wrappers
  import opened Sums
  import opened Companies
  import opened Protocol
  import opened Conservation
  import opened Debt

  /** What the company may owe. */
  function Ceiling(w: World, c: CompanyId): int {
    if c in w.accounts then w.accounts[c].creditLimit + w.accounts[c].walletBalance else 0
  }

  function Drop(v: World, w: World, c: CompanyId): nat {
    if Ceiling(w, c) < Ceiling(v, c) then Ceiling(v, c) - Ceiling(w, c) else 0
  }

  /** The total of limit cuts and wallet reductions of the company over the run. */
  function Cuts(steps: seq<Step>, c: CompanyId): nat
    requires Exec(Empty(), steps).Some?
  {
    if steps == [] then 0
    else
      var v := Before(Empty(), steps);
      Cuts(steps[..|steps| - 1], c) + Drop(v, Exec(Empty(), steps).value, c)
  }

  /**
    A priced credit request is let through exactly when its positive amount is covered, whoever else is
    in flight, and refused exactly when it is not.
  */
  lemma LetThroughExactly(w: World, i: nat, acked: bool)
    requires i < |w.sagas| && w.sagas[i].pc == Priced && w.sagas[i].paymentMethod == Credit
    ensures var s := w.sagas[i];
      var covered := s.amount > 0 && s.company in w.accounts
        && w.accounts[s.company].creditLimit + w.accounts[s.company].walletBalance - w.accounts[s.company].outstandingBalance >= s.amount;
      && (Enabled(w, SagaStep(i, DeductCredit(acked))) <==> covered)
      && (Enabled(w, SagaStep(i, RefuseCredit)) <==> !covered)
    ensures Enabled(w, SagaStep(i, DeductCredit(acked))) ==>
      DebtMoved(w.accounts, Apply(w, SagaStep(i, DeductCredit(acked))).accounts, w.sagas[i].company, w.sagas[i].amount)
  {
    DeductExactly(w.accounts, w.sagas[i].company, w.sagas[i].amount);
    AddedExactly(w.accounts, w.sagas[i].company, w.sagas[i].amount);
  }

  /** A step raises the debt only within the available credit. */
  lemma StepUnderCap(w: World, step: Step, c: CompanyId)
    requires WellFormed(w) && Enabled(w, step)
    ensures var v := Apply(w, step);
      || (Outstanding(v, c) <= Outstanding(w, c))
      || (Outstanding(v, c) <= Ceiling(v, c) && Ceiling(v, c) == Ceiling(w, c))
  {
    match step
    case SagaStep(i, act) => assert SagaOk(w.accounts.Keys, w.sagas[i]);
    case CancelStep(k, act) => assert CancelOk(w.bookings, w.cancels[k]);
    case _ =>
  }

  /** The cap, for every interleaving. */
  lemma {:induction false} CreditCap(steps: seq<Step>, w: World, c: CompanyId)
    requires Exec(Empty(), steps) == Some(w)
    ensures Outstanding(w, c) <= Ceiling(w, c) + Cuts(steps, c)
  {
    if steps != [] {
      var v := Before(Empty(), steps);
      CreditCap(steps[..|steps| - 1], v, c);
      Invariant(steps[..|steps| - 1], v, c);
      StepUnderCap(v, steps[|steps| - 1], c);
    }
  }

  /** If nothing was cut, everything held, stranded or owed fits in limit plus wallet. */
  lemma {:induction false} NeverOverspent(steps: seq<Step>, w: World, c: CompanyId)
    requires Exec(Empty(), steps) == Some(w) && Cuts(steps, c) == 0
    ensures Held(w, c) + StrandedSum(w, c) + SumTo(|w.bookings|, OwedOn(w, c)) <= Ceiling(w, c)
  {
    CreditCap(steps, w, c);
    DebtIsOwed(steps, w, c);
  }

  /** And then the figure getAvailableCredit shows is the true one: its clamp at zero never acts. */
  lemma {:induction false} ClampNeverActs(steps: seq<Step>, w: World, c: CompanyId)
    requires Exec(Empty(), steps) == Some(w) && Cuts(steps, c) == 0 && c in w.accounts
    ensures w.accounts[c].Available() >= 0
  {
    CreditCap(steps, w, c);
  }

  /**
    Only a lower limit, a wallet deduction, or an administrator's write of a wallet balance
    computed from an outdated read can cut.
  */
  lemma WhatCuts(w: World, step: Step, c: CompanyId)
    requires Enabled(w, step) && Drop(w, Apply(w, step), c) > 0
    ensures step.Office? && c in w.accounts
    ensures match step.act
      case UpdateLimit(d, limit, _, _, _) => d == c && limit < w.accounts[c].creditLimit
      case WalletDeduction(d, amount) => d == c
      case AdminTopUp(d, readWallet, _, _) => d == c && readWallet < w.accounts[c].walletBalance
      case AdminRefund(b, readWallet, _, _, _) => w.bookings[b].company == c && readWallet < w.accounts[c].walletBalance
      case _ => false
  {
  }

  // ── Exactly when the available credit never goes below zero ──────────────────

  /** The company owes no more than limit plus wallet, at the end of the run and before. */
  predicate NeverOverdrawn(steps: seq<Step>, c: CompanyId)
    requires Exec(Empty(), steps).Some?
  {
    var w := Exec(Empty(), steps).value;
    Outstanding(w, c) <= Ceiling(w, c) && (steps != [] ==> NeverOverdrawn(steps[..|steps| - 1], c))
  }

  /** The guard: a step that lowers limit plus wallet leaves them at or above the debt there is. */
  predicate CutFits(w: World, step: Step, c: CompanyId)
    requires Enabled(w, step)
  {
    Drop(w, Apply(w, step), c) > 0 ==> Ceiling(Apply(w, step), c) >= Outstanding(w, c)
  }

  predicate AllCutsFit(steps: seq<Step>, c: CompanyId)
    requires Exec(Empty(), steps).Some?
  {
    steps != [] ==> AllCutsFit(steps[..|steps| - 1], c) && CutFits(Before(Empty(), steps), steps[|steps| - 1], c)
  }

  lemma StepOverdraws(w: World, step: Step, c: CompanyId)
    requires WellFormed(w) && Enabled(w, step) && Outstanding(w, c) <= Ceiling(w, c)
    ensures Outstanding(Apply(w, step), c) <= Ceiling(Apply(w, step), c) <==> CutFits(w, step, c)
  {
    if Drop(w, Apply(w, step), c) > 0 {
      WhatCuts(w, step, c);
      OfficeKeepsDebt(w, step.act, Apply(w, step), c);
    } else {
      StepUnderCap(w, step, c);
    }
  }

  /**
    Over any run the available credit of a company never goes below zero exactly when no limit cut,
    wallet deduction or outdated wallet write takes limit plus wallet below the debt of that moment.
  */
  lemma {:induction false} NeverOverdrawnExactly(steps: seq<Step>, c: CompanyId)
    requires Exec(Empty(), steps).Some?
    ensures NeverOverdrawn(steps, c) <==> AllCutsFit(steps, c)
  {
    if steps != [] {
      var n := |steps| - 1;
      var v := Before(Empty(), steps);
      NeverOverdrawnExactly(steps[..n], c);
      Invariant(steps[..n], v, c);
      if NeverOverdrawn(steps[..n], c) {
        StepOverdraws(v, steps[n], c);
      }
    }
  }

  /** In terms of the stored company: the figure that the runbook's integrity query computes. */
  lemma AvailableIsHeadroom(w: World, c: CompanyId)
    requires c in w.accounts
    ensures w.accounts[c].Available() >= 0 <==> Outstanding(w, c) <= Ceiling(w, c)
  {
  }
}
