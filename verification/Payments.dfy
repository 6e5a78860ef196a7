/**
  server/src/modules/payments: orders, verification, webhooks and refunds of gateway payments.
  Handlers of one payment are serialised; any number of them may come in any order.
*/
module Payments {
  import opened Wrappers
  import opened Sums
  import opened Companies

  datatype Kind = BookingOnline | WalletTopup

  datatype Status = Created | Pending | Success | Failed | Refunded

  /** `orderId` is whether gatewayOrderId is stored: handlers find the payment by it. */
  datatype Payment = Payment(company: CompanyId, kind: Kind, amount: int, status: Status, orderId: bool, webhookEvents: nat)

  datatype GatewayAnswer = Approved | Declined | NoAnswer

  /**
    How createOrder went once the payment was stored. A first save that took effect but threw is
    GatewayFailed(Lost): nothing more happens. `mark` is the save in the catch block.
  */
  datatype OrderOutcome =
    | OrderPlaced
    | GatewayFailed(mark: Write)              // the gateway call threw
    | SaveFailed(took: bool, mark: Write)     // the gateway accepted and the save threw; whether it took effect all the same

  /** `save`: the payment's save. `wallet`: the wallet's update. */
  datatype Event =
    | Verify(answer: GatewayAnswer, save: Write, wallet: Write)
    | Webhook(approved: bool, save: Write, wallet: Write)
    | Refund(amount: int, accepted: bool, save: Write, wallet: Write)

  // ── What a handler does to its payment ───────────────────────────────────────

  function Placed(p: Payment, outcome: OrderOutcome): Payment {
    match outcome
    case OrderPlaced => p.(orderId := true, status := Pending)
    case GatewayFailed(mark) => if mark.Took() then p.(status := Failed) else p
    case SaveFailed(took, mark) =>
      if mark.Took() then p.(orderId := true, status := Failed)
      else if took then p.(orderId := true, status := Pending)
      else p
  }

  /** The handler moves the payment into SUCCESS. */
  predicate Enters(p: Payment, e: Event) {
    p.orderId && p.status != Success
    && match e
       case Verify(answer, save, _) => answer == Approved && save.Took()
       case Webhook(approved, save, _) => approved && save.Took()
       case Refund(_, _, _, _) => false
  }

  /** The handler moves it out of SUCCESS. */
  predicate Leaves(p: Payment, e: Event) {
    e.Refund? && p.status == Success && p.orderId && e.accepted && e.save.Took()
  }

  /** The handler tops up the wallet. */
  predicate Credits(p: Payment, e: Event) {
    Enters(p, e) && e.save == Seen && p.kind == WalletTopup && e.wallet.Took()
  }

  function After(p: Payment, e: Event): Payment {
    match e
    case Verify(answer, save, _) =>
      if !p.orderId || p.status == Success || answer == NoAnswer || !save.Took() then p
      else p.(status := if answer == Approved then Success else Failed)
    case Webhook(approved, save, _) =>
      if !p.orderId || !save.Took() then p
      else
        var q := p.(webhookEvents := p.webhookEvents + 1);
        if p.status == Success then q else q.(status := if approved then Success else Failed)
    case Refund(_, _, _, _) => if Leaves(p, e) then p.(status := Refunded) else p
  }

  /** What a refund takes from the wallet: its amount, if the wallet covers it. */
  function Taken(accounts: Accounts, p: Payment, e: Event): int {
    if Leaves(p, e) && e.save == Seen && p.kind == WalletTopup && e.wallet.Took()
       && p.company in accounts && accounts[p.company].walletBalance >= e.amount then e.amount
    else 0
  }

  function AccountsAfter(accounts: Accounts, p: Payment, e: Event): Accounts {
    AddWallet(accounts, p.company, (if Credits(p, e) then p.amount else 0) - Taken(accounts, p, e))
  }

  /** The wallet of one company has grown by the amount; its other balances and all other companies are as before. */
  predicate WalletMoved(was: Accounts, now: Accounts, id: CompanyId, amount: int) {
    && now.Keys == was.Keys
    && (forall c :: c in was && c != id ==> now[c] == was[c])
    && (id in was ==>
          && now[id].walletBalance - was[id].walletBalance == amount
          && now[id].creditLimit == was[id].creditLimit && now[id].outstandingBalance == was[id].outstandingBalance
          && now[id].loyaltyPoints == was[id].loyaltyPoints)
  }

  lemma AddedToWallet(accounts: Accounts, id: CompanyId, amount: int)
    ensures WalletMoved(accounts, AddWallet(accounts, id, amount), id, amount)
  {
  }

  // ── The service ──────────────────────────────────────────────────────────────

  datatype Reply = Now(status: Status) | Received | PaymentNotFound | NotRefundable | GatewayError | DatabaseError | WalletTooLow

  class PaymentsService {
    const companies: CompaniesService
    var payments: seq<Payment>

    constructor (companies: CompaniesService)
      ensures this.companies == companies && payments == []
    {
      this.companies := companies;
      payments := [];
    }

    /** The payment is stored first; the gateway's answer and the second save decide the rest. */
    method CreateOrder(company: CompanyId, kind: Kind, amount: int, outcome: OrderOutcome) returns (r: Option<nat>)
      modifies this
      ensures payments == old(payments) +
        if company in companies.accounts then [Placed(Payment(company, kind, amount, Created, false, 0), outcome)] else []
      ensures r == if company in companies.accounts && outcome.OrderPlaced? then Some(old(|payments|)) else None
      ensures company !in companies.accounts ==> payments == old(payments)
      ensures company in companies.accounts ==>
        && |payments| == old(|payments|) + 1 && payments[..old(|payments|)] == old(payments)
        && var p := payments[old(|payments|)];
           && p.company == company && p.kind == kind && p.amount == amount && p.webhookEvents == 0
           && (p.orderId <==> outcome.OrderPlaced? || (outcome.SaveFailed? && (outcome.took || outcome.mark != Lost)))
           && (p.status == Failed <==> !outcome.OrderPlaced? && outcome.mark != Lost)
           && (p.status == Pending <==> outcome.OrderPlaced? || (outcome.SaveFailed? && outcome.took && outcome.mark == Lost))
           && (p.status == Failed || p.status == Pending || p.status == Created)
    {
      if company !in companies.accounts {
        return None;
      }
      var id := |payments|;
      payments := payments + [Payment(company, kind, amount, Created, false, 0)];
      r := None;
      match outcome {
        case OrderPlaced =>
          payments := payments[id := payments[id].(orderId := true, status := Pending)];
          r := Some(id);
        case GatewayFailed(mark) =>
          if mark.Took() {
            payments := payments[id := payments[id].(status := Failed)];
          }
        case SaveFailed(took, mark) =>
          if took {
            payments := payments[id := payments[id].(orderId := true, status := Pending)];
          }
          if mark.Took() {
            payments := payments[id := payments[id].(orderId := true, status := Failed)];
          }
      }
    }

    /** Says whether the call returned normally. */
    method HandlePostPaymentSuccess(p: Payment, wallet: Write) returns (ok: bool)
      modifies companies
      ensures ok <==> p.kind == BookingOnline || wallet == Seen
      ensures companies.accounts ==
        AddWallet(old(companies.accounts), p.company, if p.kind == WalletTopup && wallet.Took() then p.amount else 0)
      ensures WalletMoved(old(companies.accounts), companies.accounts, p.company,
                          if p.kind == WalletTopup && wallet != Lost then p.amount else 0)
    {
      AddedToWallet(companies.accounts, p.company, if p.kind == WalletTopup && wallet.Took() then p.amount else 0);
      assert AddWallet(companies.accounts, p.company, 0) == companies.accounts;
      if p.kind == BookingOnline {
        return true;
      }
      if wallet.Took() {
        companies.TopUpWallet(p.company, p.amount);
      }
      ok := wallet == Seen;
    }

    method VerifyPayment(id: nat, answer: GatewayAnswer, save: Write, wallet: Write) returns (r: Reply)
      requires id < |payments|
      modifies this, companies
      ensures payments == old(payments)[id := After(old(payments[id]), Verify(answer, save, wallet))]
      ensures companies.accounts == AccountsAfter(old(companies.accounts), old(payments[id]), Verify(answer, save, wallet))
      ensures var was := old(payments[id]);
        && payments == old(payments)[id := payments[id]]
        && payments[id] == was.(status := payments[id].status)
        && payments[id].status ==
             (if was.orderId && was.status != Success && answer != NoAnswer && save != Lost then
                if answer == Approved then Success else Failed
              else was.status)
        && WalletMoved(old(companies.accounts), companies.accounts, was.company,
             if was.orderId && was.status != Success && answer == Approved && save == Seen && was.kind == WalletTopup && wallet != Lost
             then was.amount else 0)
      ensures r == PaymentNotFound <==> !old(payments[id].orderId)
      ensures r == GatewayError <==> old(payments[id].orderId) && old(payments[id].status) != Success && answer == NoAnswer
      ensures r == Now(Failed) <==>
        old(payments[id].orderId) && old(payments[id].status) != Success && answer == Declined && save == Seen
      ensures r == Now(Success) <==>
        && old(payments[id].orderId)
        && (old(payments[id].status) == Success
            || (answer == Approved && save == Seen && (old(payments[id].kind) == BookingOnline || wallet == Seen)))
    {
      var p := payments[id];
      assert AddWallet(companies.accounts, p.company, 0) == companies.accounts;
      AddedToWallet(companies.accounts, p.company, 0);
      if !p.orderId {
        return PaymentNotFound;
      }
      if p.status == Success {
        return Now(Success);
      }
      if answer == NoAnswer {
        return GatewayError;
      }
      if save.Took() {
        payments := payments[id := p.(status := if answer == Approved then Success else Failed)];
      }
      if save != Seen {
        return DatabaseError;
      }
      if answer == Approved {
        var ok := HandlePostPaymentSuccess(p, wallet);
        if !ok {
          return DatabaseError;
        }
      }
      return Now(payments[id].status);
    }

    /** A webhook whose signature was valid. The event is kept whatever the status; a failing top-up is only logged. */
    method HandleWebhook(id: nat, approved: bool, save: Write, wallet: Write) returns (r: Reply)
      requires id < |payments|
      modifies this, companies
      ensures payments == old(payments)[id := After(old(payments[id]), Webhook(approved, save, wallet))]
      ensures companies.accounts == AccountsAfter(old(companies.accounts), old(payments[id]), Webhook(approved, save, wallet))
      ensures var was := old(payments[id]);
        && payments == old(payments)[id := payments[id]]
        && payments[id] == was.(status := payments[id].status, webhookEvents := payments[id].webhookEvents)
        && payments[id].status ==
             (if was.orderId && was.status != Success && save != Lost then if approved then Success else Failed else was.status)
        && payments[id].webhookEvents == was.webhookEvents + (if was.orderId && save != Lost then 1 else 0)
        && WalletMoved(old(companies.accounts), companies.accounts, was.company,
             if was.orderId && was.status != Success && approved && save == Seen && was.kind == WalletTopup && wallet != Lost
             then was.amount else 0)
      ensures r == if old(payments[id].orderId) && save != Seen then DatabaseError else Received
    {
      var p := payments[id];
      assert AddWallet(companies.accounts, p.company, 0) == companies.accounts;
      AddedToWallet(companies.accounts, p.company, 0);
      if !p.orderId {
        return Received;
      }
      p := p.(webhookEvents := p.webhookEvents + 1);
      var done := p.status == Success;
      if !done {
        p := p.(status := if approved then Success else Failed);
      }
      if save.Took() {
        payments := payments[id := p];
      }
      if save != Seen {
        return DatabaseError;
      }
      if !done && approved {
        var ok := HandlePostPaymentSuccess(p, wallet);
      }
      return Received;
    }

    /** The status is saved before the wallet is charged, so a refund can end with the wallet untouched. */
    method ProcessRefund(id: nat, amount: int, accepted: bool, save: Write, wallet: Write) returns (r: Reply)
      requires id < |payments|
      modifies this, companies
      ensures payments == old(payments)[id := After(old(payments[id]), Refund(amount, accepted, save, wallet))]
      ensures companies.accounts == AccountsAfter(old(companies.accounts), old(payments[id]), Refund(amount, accepted, save, wallet))
      ensures r == NotRefundable <==> old(payments[id].status != Success || !payments[id].orderId)
      ensures old(payments[id].status) == Success && old(payments[id].orderId) ==>
        && (r == GatewayError <==> !accepted)
        && (r == Now(Refunded) <==>
              && accepted && save == Seen
              && (old(payments[id].kind) == BookingOnline
                  || (wallet == Seen && old(payments[id].company) in old(companies.accounts)
                      && amount <= old(companies.accounts)[old(payments[id].company)].walletBalance)))
      ensures var was := old(payments[id]);
        var refunded := was.status == Success && was.orderId && accepted && save != Lost;
        && payments == (if refunded then old(payments)[id := was.(status := Refunded)] else old(payments))
        && WalletMoved(old(companies.accounts), companies.accounts, was.company,
             if refunded && save == Seen && was.kind == WalletTopup && wallet != Lost
                && was.company in old(companies.accounts) && amount <= old(companies.accounts)[was.company].walletBalance
             then -amount else 0)
    {
      var p := payments[id];
      assert AddWallet(companies.accounts, p.company, 0) == companies.accounts;
      AddedToWallet(companies.accounts, p.company, 0);
      if p.status != Success || !p.orderId {
        return NotRefundable;
      }
      if !accepted {
        return GatewayError;
      }
      if save.Took() {
        payments := payments[id := p.(status := Refunded)];
      }
      if save != Seen {
        return DatabaseError;
      }
      AddedToWallet(companies.accounts, p.company, -amount);
      if p.kind == WalletTopup {
        if wallet.Took() {
          var charged := companies.DeductWallet(p.company, amount);
          if charged.Err? {
            return WalletTooLow;
          }
        }
        if wallet != Seen {
          return DatabaseError;
        }
      }
      return Now(Refunded);
    }
  }

  // ── Runs over all payments ───────────────────────────────────────────────────

  /** What has happened to a payment so far. */
  datatype Tally = Tally(entries: nat, refunds: nat, topUps: nat, credited: int, taken: int)

  datatype Ledger = Ledger(accounts: Accounts, payments: seq<Payment>, tallies: seq<Tally>)

  datatype Step =
    | Order(company: CompanyId, kind: Kind, amount: int, outcome: OrderOutcome)
    | On(id: nat, event: Event)

  function Count(t: Tally, accounts: Accounts, p: Payment, e: Event): Tally {
    Tally(t.entries + if Enters(p, e) then 1 else 0,
          t.refunds + if Leaves(p, e) then 1 else 0,
          t.topUps + if Credits(p, e) then 1 else 0,
          t.credited + (if Credits(p, e) then p.amount else 0),
          t.taken + Taken(accounts, p, e))
  }

  function Next(s: Ledger, step: Step): Ledger {
    match step
    case Order(company, kind, amount, outcome) =>
      if company !in s.accounts then s
      else s.(payments := s.payments + [Placed(Payment(company, kind, amount, Created, false, 0), outcome)],
              tallies := s.tallies + [Tally(0, 0, 0, 0, 0)])
    case On(id, e) =>
      if id >= |s.payments| || |s.tallies| != |s.payments| then s
      else
        var p := s.payments[id];
        Ledger(AccountsAfter(s.accounts, p, e), s.payments[id := After(p, e)], s.tallies[id := Count(s.tallies[id], s.accounts, p, e)])
  }

  function Run(accounts: Accounts, steps: seq<Step>): Ledger {
    if steps == [] then Ledger(accounts, [], []) else Next(Run(accounts, steps[..|steps| - 1]), steps[|steps| - 1])
  }

  /** The counting identity of one payment. */
  predicate Counted(p: Payment, t: Tally) {
    && t.entries - t.refunds == (if p.status == Success then 1 else 0)
    && t.topUps <= t.entries && t.credited == p.amount * t.topUps
    && (p.kind == BookingOnline ==> t.topUps == 0 && t.taken == 0)
    && (!p.orderId ==> t.entries == 0)
  }

  lemma CountedStep(p: Payment, t: Tally, accounts: Accounts, e: Event)
    requires Counted(p, t)
    ensures Counted(After(p, e), Count(t, accounts, p, e))
  {
    assert p.amount * (t.topUps + 1) == p.amount * t.topUps + p.amount;
  }

  lemma {:induction false} PaymentsCounted(accounts: Accounts, steps: seq<Step>)
    ensures var s := Run(accounts, steps);
      && |s.tallies| == |s.payments|
      && forall id :: 0 <= id < |s.payments| ==> Counted(s.payments[id], s.tallies[id])
  {
    if steps != [] {
      var s := Run(accounts, steps[..|steps| - 1]);
      PaymentsCounted(accounts, steps[..|steps| - 1]);
      var step := steps[|steps| - 1];
      if step.On? && step.id < |s.payments| {
        CountedStep(s.payments[step.id], s.tallies[step.id], s.accounts, step.event);
      }
    }
  }

  /**
    Whatever the order and number of calls: a payment never refunded is credited at most once, and
    only if it is a wallet top-up; one whose order failed at the gateway is never credited.
  */
  lemma CreditedAtMostOnce(accounts: Accounts, steps: seq<Step>, id: nat)
    requires id < |Run(accounts, steps).payments|
    ensures var s := Run(accounts, steps);
      && |s.tallies| == |s.payments|
      && (s.tallies[id].refunds == 0 ==> s.tallies[id].topUps <= 1)
      && (s.payments[id].kind == BookingOnline ==> s.tallies[id].topUps == 0)
      && (!s.payments[id].orderId ==> s.tallies[id].topUps == 0)
      && s.tallies[id].topUps <= 1 + s.tallies[id].refunds
  {
    PaymentsCounted(accounts, steps);
  }

  /** No handler stores a gateway order id: only createOrder does. */
  lemma OrderIdFixed(p: Payment, e: Event)
    ensures After(p, e).orderId == p.orderId && After(p, e).amount == p.amount && After(p, e).company == p.company && After(p, e).kind == p.kind
  {
  }

  // ── The wallet ───────────────────────────────────────────────────────────────

  function Flow(p: Payment, t: Tally, c: CompanyId): int {
    if p.company == c then t.credited - t.taken else 0
  }

  /** Net flow into the wallet of c from the first n payments. */
  function FlowOf(s: Ledger, c: CompanyId): nat -> int {
    (id: nat) => if id < |s.payments| && id < |s.tallies| then Flow(s.payments[id], s.tallies[id], c) else 0
  }

  lemma {:induction false} SameFlow(n: nat, f: nat -> int, g: nat -> int, k: nat)
    requires forall id: nat :: id < n && id != k ==> f(id) == g(id)
    ensures SumTo(n, f) - SumTo(n, g) == if k < n then f(k) - g(k) else 0
  {
    if n > 0 {
      SameFlow(n - 1, f, g, k);
    }
  }

  function Wallet(accounts: Accounts, c: CompanyId): int {
    if c in accounts then accounts[c].walletBalance else 0
  }

  /**
    Conservation: the wallet of a company holds what it started with, plus each of its payments'
    amounts once per credit, less what refunds took.
  */
  lemma {:induction false} WalletFlow(accounts: Accounts, steps: seq<Step>, c: CompanyId)
    requires c in accounts
    ensures var s := Run(accounts, steps);
      && c in s.accounts && |s.tallies| == |s.payments|
      && Wallet(s.accounts, c) == Wallet(accounts, c) + SumTo(|s.payments|, FlowOf(s, c))
  {
    PaymentsCounted(accounts, steps);
    if steps != [] {
      var n := |steps| - 1;
      var s := Run(accounts, steps[..n]);
      var t := Run(accounts, steps);
      WalletFlow(accounts, steps[..n], c);
      match steps[n]
      case Order(_, _, _, _) =>
        SameFlow(|s.payments|, FlowOf(t, c), FlowOf(s, c), |s.payments|);
      case On(id, e) =>
        if id < |s.payments| {
          OrderIdFixed(s.payments[id], e);
          SameFlow(|s.payments|, FlowOf(t, c), FlowOf(s, c), id);
          CreditStep(s.accounts, s.payments[id], s.tallies[id], e, c);
        }
    }
  }

  lemma CreditStep(accounts: Accounts, p: Payment, t: Tally, e: Event, c: CompanyId)
    requires c in accounts
    ensures Wallet(AccountsAfter(accounts, p, e), c) - Wallet(accounts, c)
         == Flow(After(p, e), Count(t, accounts, p, e), c) - Flow(p, t, c)
    ensures c in AccountsAfter(accounts, p, e)
  {
    OrderIdFixed(p, e);
  }

  /** A handler that was told of a decline and whose save took effect. */
  predicate Declines(e: Event) {
    match e
    case Verify(answer, save, _) => answer == Declined && save != Lost
    case Webhook(approved, save, _) => !approved && save != Lost
    case Refund(_, _, _, _) => false
  }

  /**
    Over any run: right after a declining handler a payment that can be found and has not succeeded is
    FAILED, whatever it was before, and one that has succeeded still is.
  */
  lemma DeclinedIsFailed(accounts: Accounts, steps: seq<Step>, id: nat, e: Event)
    requires id < |Run(accounts, steps).payments| && Declines(e)
    ensures var was, now := Run(accounts, steps), Run(accounts, steps + [On(id, e)]);
      && |now.payments| == |was.payments|
      && now.payments[id].status ==
           if was.payments[id].orderId && was.payments[id].status != Success then Failed else was.payments[id].status
  {
    PaymentsCounted(accounts, steps);
    RunMore(accounts, steps, On(id, e));
  }

  // ── Exactly when a payment succeeds, or is credited, at most once ────────────

  /** A handler moves payment id into SUCCESS although it was refunded before. */
  predicate Reenters(s: Ledger, step: Step, id: nat) {
    step.On? && step.id == id && id < |s.payments| && |s.tallies| == |s.payments|
    && s.tallies[id].refunds > 0 && Enters(s.payments[id], step.event)
  }

  predicate NeverReenters(accounts: Accounts, steps: seq<Step>, id: nat) {
    steps != [] ==>
      && NeverReenters(accounts, steps[..|steps| - 1], id)
      && !Reenters(Run(accounts, steps[..|steps| - 1]), steps[|steps| - 1], id)
  }

  /** The same for a handler that credits the wallet once more. */
  predicate Recredits(s: Ledger, step: Step, id: nat) {
    Reenters(s, step, id) && s.tallies[id].topUps > 0 && Credits(s.payments[id], step.event)
  }

  predicate NeverRecredits(accounts: Accounts, steps: seq<Step>, id: nat) {
    steps != [] ==>
      && NeverRecredits(accounts, steps[..|steps| - 1], id)
      && !Recredits(Run(accounts, steps[..|steps| - 1]), steps[|steps| - 1], id)
  }

  /** One step from a state where the counts of payment id agree. */
  lemma EntersAgain(s: Ledger, step: Step, id: nat)
    requires |s.tallies| == |s.payments| && (id < |s.tallies| ==> Counted(s.payments[id], s.tallies[id]))
    ensures var t := Next(s, step);
      && |t.tallies| >= |s.tallies|
      && (id < |t.tallies| ==>
            (t.tallies[id].entries <= 1 <==> (id < |s.tallies| ==> s.tallies[id].entries <= 1) && !Reenters(s, step, id)))
      && (Reenters(s, step, id) ==> id < |s.tallies|)
  {
  }

  lemma CreditsAgain(s: Ledger, step: Step, id: nat)
    requires |s.tallies| == |s.payments| && (id < |s.tallies| ==> Counted(s.payments[id], s.tallies[id]))
    ensures var t := Next(s, step);
      && |t.tallies| >= |s.tallies|
      && (id < |t.tallies| ==>
            (t.tallies[id].topUps <= 1 <==> (id < |s.tallies| ==> s.tallies[id].topUps <= 1) && !Recredits(s, step, id)))
      && (Recredits(s, step, id) ==> id < |s.tallies|)
  {
  }

  /**
    A payment enters SUCCESS at most once exactly when no approving verification or webhook meets it
    unsuccessful once it has been refunded, whatever its status is by then.
  */
  lemma {:induction false} EnteredAtMostOnceExactly(accounts: Accounts, steps: seq<Step>, id: nat)
    ensures id < |Run(accounts, steps).tallies| ==>
      (Run(accounts, steps).tallies[id].entries <= 1 <==> NeverReenters(accounts, steps, id))
    ensures id >= |Run(accounts, steps).tallies| ==> NeverReenters(accounts, steps, id)
  {
    if steps != [] {
      var n := |steps| - 1;
      EnteredAtMostOnceExactly(accounts, steps[..n], id);
      PaymentsCounted(accounts, steps[..n]);
      EntersAgain(Run(accounts, steps[..n]), steps[n], id);
    }
  }

  /** And its wallet is credited at most once exactly when no such handler credits it again. */
  lemma {:induction false} CreditedAtMostOnceExactly(accounts: Accounts, steps: seq<Step>, id: nat)
    ensures id < |Run(accounts, steps).tallies| ==>
      (Run(accounts, steps).tallies[id].topUps <= 1 <==> NeverRecredits(accounts, steps, id))
    ensures id >= |Run(accounts, steps).tallies| ==> NeverRecredits(accounts, steps, id)
  {
    if steps != [] {
      var n := |steps| - 1;
      CreditedAtMostOnceExactly(accounts, steps[..n], id);
      PaymentsCounted(accounts, steps[..n]);
      CreditsAgain(Run(accounts, steps[..n]), steps[n], id);
    }
  }

  // ── Exactly when refunds take no more than was credited ──────────────────────

  /** What was taken from the wallet for payment id is covered by what was credited, at the end of the run and before. */
  predicate NeverOvertaken(accounts: Accounts, steps: seq<Step>, id: nat) {
    var s := Run(accounts, steps);
    && (id < |s.tallies| ==> s.tallies[id].taken <= s.tallies[id].credited)
    && (steps != [] ==> NeverOvertaken(accounts, steps[..|steps| - 1], id))
  }

  /** A refund of payment id takes more than is left of what was credited. */
  predicate Overtakes(s: Ledger, step: Step, id: nat) {
    step.On? && step.id == id && id < |s.payments| && |s.tallies| == |s.payments|
    && Taken(s.accounts, s.payments[id], step.event) > s.tallies[id].credited - s.tallies[id].taken
  }

  /** The guard processRefund lacks: a refund that reaches the wallet is at most what is left of the credit. */
  predicate RefundsFit(accounts: Accounts, steps: seq<Step>, id: nat) {
    steps != [] ==>
      && RefundsFit(accounts, steps[..|steps| - 1], id)
      && !Overtakes(Run(accounts, steps[..|steps| - 1]), steps[|steps| - 1], id)
  }

  lemma OvertakenStep(s: Ledger, step: Step, id: nat)
    requires |s.tallies| == |s.payments| && AmountsOk(s)
    requires id < |s.tallies| ==> s.tallies[id].taken <= s.tallies[id].credited
    ensures var t := Next(s, step);
      (id < |t.tallies| ==> t.tallies[id].taken <= t.tallies[id].credited) <==> !Overtakes(s, step, id)
  {
  }

  /** Amounts are positive, as CreateOrderDto demands. */
  predicate PositiveOrders(steps: seq<Step>) {
    forall i :: 0 <= i < |steps| && steps[i].Order? ==> steps[i].amount >= 1
  }

  predicate AmountsOk(s: Ledger) {
    forall k :: 0 <= k < |s.payments| ==> s.payments[k].amount >= 0
  }

  lemma AmountsStep(s: Ledger, step: Step)
    requires AmountsOk(s) && (step.Order? ==> step.amount >= 1)
    ensures AmountsOk(Next(s, step))
  {
    if step.On? && step.id < |s.payments| {
      OrderIdFixed(s.payments[step.id], step.event);
    }
  }

  lemma {:induction false} AmountsPositive(accounts: Accounts, steps: seq<Step>)
    requires PositiveOrders(steps)
    ensures AmountsOk(Run(accounts, steps))
  {
    if steps != [] {
      var n := |steps| - 1;
      AmountsPositive(accounts, steps[..n]);
      AmountsStep(Run(accounts, steps[..n]), steps[n]);
    }
  }

  /** Over any run, refunds never take more for a payment than was credited for it exactly when each one fits. */
  lemma {:induction false} NeverOvertakenExactly(accounts: Accounts, steps: seq<Step>, id: nat)
    requires PositiveOrders(steps)
    ensures NeverOvertaken(accounts, steps, id) <==> RefundsFit(accounts, steps, id)
  {
    if steps != [] {
      var n := |steps| - 1;
      NeverOvertakenExactly(accounts, steps[..n], id);
      PaymentsCounted(accounts, steps[..n]);
      AmountsPositive(accounts, steps[..n]);
      if NeverOvertaken(accounts, steps[..n], id) {
        OvertakenStep(Run(accounts, steps[..n]), steps[n], id);
      }
    }
  }

  /** A run for every excess: an order, its approval, and a refund of more than was paid, which the rest of the wallet covers. */
  lemma RefundTakesMore(accounts: Accounts, company: CompanyId, amount: int, excess: nat) returns (steps: seq<Step>)
    requires company in accounts && accounts[company].walletBalance >= excess && amount >= 1
    ensures PositiveOrders(steps)
    ensures var s := Run(accounts, steps);
      |s.tallies| == 1 && s.tallies[0].credited == amount && s.tallies[0].taken == amount + excess
  {
    var order := Order(company, WalletTopup, amount, OrderPlaced);
    var approve := On(0, Webhook(true, Seen, Seen));
    var refund := On(0, Refund(amount + excess, true, Seen, Seen));
    steps := [] + [order] + [approve] + [refund];
    RunMore(accounts, [], order);
    RunMore(accounts, [] + [order], approve);
    RunMore(accounts, [] + [order] + [approve], refund);
  }

  // ── Runs that credit twice ───────────────────────────────────────────────────

  lemma RunMore(accounts: Accounts, steps: seq<Step>, step: Step)
    ensures Run(accounts, steps + [step]) == Next(Run(accounts, steps), step)
  {
    assert (steps + [step])[..|steps|] == steps;
  }

  /** An order by a known company, an approving webhook, and a refund. */
  lemma RefundedRun(accounts: Accounts, company: CompanyId, amount: int) returns (steps: seq<Step>)
    requires company in accounts
    ensures var s := Run(accounts, steps);
      && s.payments == [Payment(company, WalletTopup, amount, Refunded, true, 1)]
      && |s.tallies| == 1 && s.tallies[0].topUps == 1 && s.tallies[0].refunds == 1
  {
    var order := Order(company, WalletTopup, amount, OrderPlaced);
    var approve := On(0, Webhook(true, Seen, Seen));
    var refund := On(0, Refund(amount, true, Seen, Seen));
    steps := [] + [order] + [approve] + [refund];
    RunMore(accounts, [], order);
    RunMore(accounts, [] + [order], approve);
    RunMore(accounts, [] + [order] + [approve], refund);
  }

  /** A webhook delivered again after the refund credits the wallet again. */
  lemma CreditedTwiceAfterRefund(accounts: Accounts, company: CompanyId, amount: int) returns (steps: seq<Step>)
    requires company in accounts
    ensures |Run(accounts, steps).tallies| == 1 && Run(accounts, steps).tallies[0].topUps == 2
  {
    var before := RefundedRun(accounts, company, amount);
    steps := before + [On(0, Webhook(true, Seen, Seen))];
    RunMore(accounts, before, On(0, Webhook(true, Seen, Seen)));
  }

  /** So does one that comes after a declining webhook has replaced REFUNDED by FAILED. */
  lemma CreditedTwiceThroughFailed(accounts: Accounts, company: CompanyId, amount: int) returns (steps: seq<Step>)
    requires company in accounts
    ensures |steps| > 0 && |Run(accounts, steps[..|steps| - 1]).payments| == 1
    ensures Run(accounts, steps[..|steps| - 1]).payments[0].status == Failed
    ensures |Run(accounts, steps).tallies| == 1 && Run(accounts, steps).tallies[0].topUps == 2
  {
    var before := RefundedRun(accounts, company, amount);
    var decline, approve := On(0, Webhook(false, Seen, Seen)), On(0, Webhook(true, Seen, Seen));
    RunMore(accounts, before, decline);
    RunMore(accounts, before + [decline], approve);
    steps := before + [decline] + [approve];
    assert steps[..|steps| - 1] == before + [decline];
  }

  // ── Orders that failed ───────────────────────────────────────────────────────

  predicate Credited(s: Ledger, id: nat) {
    id < |s.tallies| && s.tallies[id].topUps > 0
  }

  predicate CreditedAfter(accounts: Accounts, steps: seq<Step>, more: seq<Step>, id: nat) {
    Credited(Run(accounts, steps + more), id)
  }

  predicate SamePayment(p: Payment, q: Payment) {
    q.orderId == p.orderId && q.kind == p.kind && q.company == p.company && q.amount == p.amount
  }

  lemma NextKeeps(s: Ledger, step: Step, id: nat, t: Ledger)
    requires id < |s.payments| && t == Next(s, step)
    ensures id < |t.payments| && SamePayment(s.payments[id], t.payments[id])
  {
    if step.On? && step.id == id {
      OrderIdFixed(s.payments[id], step.event);
    }
  }

  /** A payment keeps its company, kind, amount and stored order id through every later step. */
  lemma {:induction false} PaymentStays(accounts: Accounts, steps: seq<Step>, more: seq<Step>, id: nat)
    requires id < |Run(accounts, steps).payments|
    ensures id < |Run(accounts, steps + more).payments|
    ensures SamePayment(Run(accounts, steps).payments[id], Run(accounts, steps + more).payments[id])
  {
    if more == [] {
      assert steps + [] == steps;
    } else {
      var n := |more| - 1;
      assert steps + more == steps + more[..n] + [more[n]];
      PaymentStays(accounts, steps, more[..n], id);
      RunMore(accounts, steps + more[..n], more[n]);
      NextKeeps(Run(accounts, steps + more[..n]), more[n], id, Run(accounts, steps + more));
    }
  }

  /**
    After any run, an order that createOrder reports as failed can ever be credited exactly when it
    is a top-up whose order id got stored: by a save that took effect although it threw, or by the
    save in the catch block.
  */
  lemma FailedOrderCanStillCredit(accounts: Accounts, steps: seq<Step>, company: CompanyId, kind: Kind, amount: int, outcome: OrderOutcome)
    requires company in Run(accounts, steps).accounts && !outcome.OrderPlaced?
    ensures (exists more :: CreditedAfter(accounts, steps + [Order(company, kind, amount, outcome)], more, |Run(accounts, steps).payments|))
            <==> kind == WalletTopup && outcome.SaveFailed? && (outcome.took || outcome.mark.Took())
  {
    var id := |Run(accounts, steps).payments|;
    var order := Order(company, kind, amount, outcome);
    PaymentsCounted(accounts, steps);
    RunMore(accounts, steps, order);
    if kind == WalletTopup && outcome.SaveFailed? && (outcome.took || outcome.mark.Took()) {
      var webhook := On(id, Webhook(true, Seen, Seen));
      RunMore(accounts, steps + [order], webhook);
      assert CreditedAfter(accounts, steps + [order], [webhook], id);
    } else {
      forall more
        ensures !CreditedAfter(accounts, steps + [order], more, id)
      {
        PaymentStays(accounts, steps + [order], more, id);
        PaymentsCounted(accounts, steps + [order] + more);
      }
    }
  }
}
