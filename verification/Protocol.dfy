/**
  The agency-credit protocol as a state machine. A `World` holds what the database
  stores together with the requests in flight, each with a program counter. A `Step`
  is one atomic action: a single conditional or unconditional update, one transaction
  commit, or the answer of an external call. Any sequence of enabled steps is a run,
  so requests interleave freely.
*/
module Protocol {
  import opened Wrappers
  import opened Companies
  import opened BookingRefs

  // ── Stored documents ─────────────────────────────────────────────────────────

  datatype Method = Credit | Online

  datatype Status = Pending | Confirmed | Cancelled | Completed | Failed

  datatype RefundStatus = RefundPending | RefundProcessed | RefundFailed

  datatype Cancellation = Cancellation(fee: int, refund: int, refundStatus: RefundStatus)

  /** A booking's identifier is its position in `World.bookings`. */
  datatype Booking = Booking(
    bookingRef: string, company: CompanyId, paymentMethod: Method, status: Status,
    totalAmount: int, supplierRef: Option<string>, cancellation: Option<Cancellation>, createdAt: int)

  datatype RowType = TopUp | CreditUse | CreditRefund | Settlement | Adjustment | LoyaltyEarn | LoyaltyRedeem

  datatype Direction = DirCredit | DirDebit

  /** A wallet transaction. Rows written by cancelBooking carry no balanceAfter. */
  datatype Row = Row(
    company: CompanyId, kind: RowType, direction: Direction, amount: int,
    refBooking: Option<nat>, balanceAfter: Option<int>)

  // ── Requests in flight ───────────────────────────────────────────────────────

  /** What is to be stored once the supplier has answered. `refundDue`: the supplier's call threw after an online payment. */
  datatype Outcome = Outcome(status: Status, supplierRef: Option<string>, refundDue: bool)

  /** Where a createBooking request is. */
  datatype SagaPc =
    | Priced                                                    // prebook has fixed the total
    | Deducted                                                  // atomicDeductCredit succeeded
    | Compensating                                              // the supplier failed or did not confirm
    | Booked(outcome: Outcome)                                  // the supplier answered; not yet persisted
    | Persisting(outcome: Outcome, number: RefNumber)
    | Committed(booking: nat)
    | Refused                                                   // insufficient credit
    | Compensated                                               // the credit was given back
    | Stranded                                                  // ended with the credit still deducted
    | NotStored                                                 // an online booking that was not stored

  datatype Saga = Saga(company: CompanyId, paymentMethod: Method, amount: int, pc: SagaPc)

  /** Where a cancelBooking request is. */
  datatype CancelPc =
    | Asked                            // the checks passed; the supplier is being called
    | Accepted(fee: int, refund: int)  // the supplier's call returned
    | RowDue(fee: int, refund: int)    // creditBack returned; the ledger row comes next
    | SaveDue(fee: int, refund: int)   // about to save the booking
    | Done

  /** `credited` is what creditBack has given back, `logged` whether its row is stored. */
  datatype Cancel = Cancel(booking: nat, company: CompanyId, returned: bool, credited: int, logged: bool, saved: bool, pc: CancelPc)

  datatype World = World(
    accounts: Accounts, bookings: seq<Booking>, ledger: seq<Row>,
    counters: map<nat, nat>, issued: seq<RefNumber>,
    sagas: seq<Saga>, cancels: seq<Cancel>)

  function Empty(): World {
    World(map[], [], [], map[], [], [], [])
  }

  // ── Steps ────────────────────────────────────────────────────────────────────

  datatype BookAnswer = Threw | Answered(confirmed: bool, supplierRef: Option<string>)

  datatype CancelAnswer = CallFailed | Returned(success: bool, fee: int, refund: int)

  /** `acked`, `applied`, `written`, `saved`: whether the caller saw the write succeed, or whether it took effect. */
  datatype SagaAct =
    | DeductCredit(acked: bool)
    | RefuseCredit
    | SupplierBooks(answer: BookAnswer)
    | GiveBack(applied: bool)
    | IssueRef(year: nat)
    | Commit(now: int)
    | Abort

  datatype CancelAct =
    | SupplierCancels(answer: CancelAnswer)
    | CreditCancel(applied: bool, acked: bool)
    | LogCancel(written: bool)
    | SaveCancel(saved: bool)

  /**
    Administration, payments and loyalty. `readLimit`, `readWallet`: what the operation read before
    it saved; another request may have written since. `paid`: the save of the wallet took effect. Saving a limit equal to the one read writes nothing.
  */
  datatype OfficeAct =
    | Register(company: CompanyId)
    | UpdateLimit(company: CompanyId, limit: int, readLimit: int, readWallet: int, written: bool)
    | AdminTopUp(company: CompanyId, readWallet: int, amount: int, written: bool)
    | AdminRefund(booking: nat, readWallet: int, amount: int, paid: bool, written: bool)
    | OverrideStatus(booking: nat, status: Status)
    | RecordSettlement(company: CompanyId, readWallet: int, amount: int)
    | GatewayTopUp(company: CompanyId, amount: int)
    | WalletDeduction(company: CompanyId, amount: int)
    | EarnPoints(company: CompanyId, booking: nat, points: int, value: int, written: bool)
    | RedeemPoints(company: CompanyId, points: int, value: int, written: bool)

  datatype Step =
    | StartBooking(company: CompanyId, paymentMethod: Method, total: int)
    | SagaStep(saga: nat, sagaAct: SagaAct)
    | StartCancel(booking: nat, company: CompanyId)
    | CancelStep(cancel: nat, cancelAct: CancelAct)
    | Office(act: OfficeAct)

  predicate SagaEnabled(w: World, i: nat, act: SagaAct)
    requires i < |w.sagas|
  {
    var s := w.sagas[i];
    match act
    case DeductCredit(_) => s.pc == Priced && s.paymentMethod == Credit && Deduct(w.accounts, s.company, s.amount).Some?
    case RefuseCredit => s.pc == Priced && s.paymentMethod == Credit && Deduct(w.accounts, s.company, s.amount).None?
    case SupplierBooks(_) => s.pc == if s.paymentMethod == Credit then Deducted else Priced
    case GiveBack(_) => s.pc == Compensating
    case IssueRef(_) => s.pc.Booked? || s.pc.Persisting?
    case Commit(_) => s.pc.Persisting?
    case Abort => s.pc.Booked? || s.pc.Persisting?
  }

  predicate CancelEnabled(w: World, k: nat, act: CancelAct)
    requires k < |w.cancels|
  {
    var x := w.cancels[k];
    && x.booking < |w.bookings|
    && match act
       case SupplierCancels(_) => x.pc == Asked
       case CreditCancel(_, _) => x.pc.Accepted?
       case LogCancel(_) => x.pc.RowDue?
       case SaveCancel(_) => x.pc.SaveDue?
  }

  predicate OfficeEnabled(w: World, act: OfficeAct) {
    match act
    case Register(c) => c !in w.accounts
    case UpdateLimit(c, limit, _, _, _) => c in w.accounts && limit >= 0
    case AdminTopUp(c, _, amount, _) => c in w.accounts && amount >= 1
    case AdminRefund(b, _, amount, _, _) => b < |w.bookings| && amount >= 0
    case OverrideStatus(b, _) => b < |w.bookings|
    case RecordSettlement(c, _, amount) => c in w.accounts && amount >= 1
    case GatewayTopUp(_, amount) => amount >= 1
    case WalletDeduction(c, amount) => c in w.accounts && w.accounts[c].walletBalance >= amount >= 1
    case EarnPoints(c, b, points, _, _) => c in w.accounts && b < |w.bookings| && points > 0
    case RedeemPoints(c, points, value, _) => c in w.accounts && points >= 1 && value >= 0
  }

  /** The checks cancelBooking makes before it calls the supplier. */
  predicate Cancellable(w: World, b: nat, c: CompanyId) {
    && b < |w.bookings| && w.bookings[b].company == c
    && (w.bookings[b].status == Confirmed || w.bookings[b].status == Pending)
    && w.bookings[b].supplierRef.Some?
  }

  predicate Enabled(w: World, step: Step) {
    match step
    case StartBooking(_, _, _) => true
    case SagaStep(i, act) => i < |w.sagas| && SagaEnabled(w, i, act)
    case StartCancel(b, c) => Cancellable(w, b, c)
    case CancelStep(k, act) => k < |w.cancels| && CancelEnabled(w, k, act)
    case Office(act) => OfficeEnabled(w, act)
  }

  // ── Effects ──────────────────────────────────────────────────────────────────

  function AfterBook(m: Method, answer: BookAnswer): SagaPc {
    match (m, answer)
    case (Credit, Threw) => Compensating
    case (Credit, Answered(confirmed, supplierRef)) => if confirmed then Booked(Outcome(Confirmed, supplierRef, false)) else Compensating
    case (Online, Threw) => Booked(Outcome(Failed, None, true))
    case (Online, Answered(confirmed, supplierRef)) =>
      Booked(Outcome(if confirmed then Confirmed else Failed, supplierRef, false))
  }

  function NextNumber(counters: map<nat, nat>, year: nat): RefNumber {
    RefNumber(year, 1 + if year in counters then counters[year] else 0)
  }

  /** The program counter a saga moves to. */
  function NextPc(w: World, s: Saga, act: SagaAct): SagaPc {
    match act
    case DeductCredit(acked) => if acked then Deducted else Stranded
    case RefuseCredit => Refused
    case SupplierBooks(answer) => AfterBook(s.paymentMethod, answer)
    case GiveBack(applied) => if applied then Compensated else Stranded
    case IssueRef(year) =>
      if s.pc.Booked? || s.pc.Persisting? then Persisting(s.pc.outcome, NextNumber(w.counters, year))
      else s.pc
    case Commit(_) => Committed(|w.bookings|)
    case Abort => if s.paymentMethod == Credit then Stranded else NotStored
  }

  /** What a saga's act adds to the company's debt. */
  function DebtOf(s: Saga, act: SagaAct): int {
    match act
    case DeductCredit(_) => s.amount
    case GiveBack(applied) => if applied then -s.amount else 0
    case _ => 0
  }

  /** An online booking the supplier's call failed on is stored with the whole amount to be refunded. */
  function NewBooking(s: Saga, now: int): Booking
    requires s.pc.Persisting?
  {
    var o := s.pc.outcome;
    Booking(Print(s.pc.number), s.company, s.paymentMethod, o.status, s.amount, o.supplierRef,
            if o.refundDue then Some(Cancellation(0, s.amount, RefundPending)) else None, now)
  }

  /** The ledger row stored in the same transaction as the booking. */
  function UseRow(s: Saga, booking: nat): Row {
    Row(s.company, CreditUse, DirDebit, s.amount, Some(booking), None)
  }

  function ApplySaga(w: World, i: nat, act: SagaAct): World
    requires i < |w.sagas| && SagaEnabled(w, i, act)
  {
    var s := w.sagas[i];
    var v := w.(sagas := w.sagas[i := s.(pc := NextPc(w, s, act))],
                accounts := AddOutstanding(w.accounts, s.company, DebtOf(s, act)));
    match act
    case IssueRef(year) =>
      var n := NextNumber(w.counters, year);
      v.(counters := w.counters[year := n.seqNo], issued := w.issued + [n])
    case Commit(now) =>
      v.(bookings := w.bookings + [NewBooking(s, now)],
         ledger := w.ledger + if s.paymentMethod == Credit then [UseRow(s, |w.bookings|)] else [])
    case _ => v
  }

  /** What cancelBooking gives back: nothing for an online booking, else the total less the fee if that is positive. */
  function Refundable(b: Booking, fee: int): int {
    if b.paymentMethod == Credit && b.totalAmount - fee > 0 then b.totalAmount - fee else 0
  }

  /** With a fee, a cancelled credit booking leaves exactly the fee uncredited, but never more than the total; an online booking is not credited. */
  lemma RefundableExactly(b: Booking, fee: int)
    ensures b.paymentMethod == Online ==> Refundable(b, fee) == 0
    ensures b.paymentMethod == Credit && fee <= b.totalAmount ==> Refundable(b, fee) + fee == b.totalAmount
    ensures b.paymentMethod == Credit && fee > b.totalAmount ==> Refundable(b, fee) == 0
  {
  }

  /** The request after an act. */
  function NextCancel(b: Booking, x: Cancel, act: CancelAct): Cancel {
    match act
    case SupplierCancels(CallFailed) => x.(pc := Done)
    case SupplierCancels(Returned(_, fee, refund)) => x.(returned := true, pc := Accepted(fee, refund))
    case CreditCancel(applied, acked) =>
      if !x.pc.Accepted? then x
      else
        var amount := if applied then Refundable(b, x.pc.fee) else 0;
        x.(credited := amount,
           pc := if amount > 0 && acked then RowDue(x.pc.fee, x.pc.refund) else SaveDue(x.pc.fee, x.pc.refund))
    case LogCancel(written) => if x.pc.RowDue? then x.(logged := written, pc := SaveDue(x.pc.fee, x.pc.refund)) else x
    case SaveCancel(saved) => x.(saved := saved, pc := Done)
  }

  function RefundRow(x: Cancel): Row {
    Row(x.company, CreditRefund, DirCredit, x.credited, Some(x.booking), None)
  }

  function CancelledBooking(b: Booking, fee: int, refund: int): Booking {
    b.(status := Cancelled,
       cancellation := Some(Cancellation(fee, refund, if b.paymentMethod == Online then RefundPending else RefundProcessed)))
  }

  function ApplyCancel(w: World, k: nat, act: CancelAct): World
    requires k < |w.cancels| && CancelEnabled(w, k, act)
  {
    var x := w.cancels[k];
    var b := w.bookings[x.booking];
    var v := w.(cancels := w.cancels[k := NextCancel(b, x, act)]);
    match act
    case SupplierCancels(_) => v
    case CreditCancel(applied, _) =>
      v.(accounts := AddOutstanding(w.accounts, x.company, if applied then -Refundable(b, x.pc.fee) else 0))
    case LogCancel(written) => if written then v.(ledger := w.ledger + [RefundRow(x)]) else v
    case SaveCancel(saved) =>
      if saved then v.(bookings := w.bookings[x.booking := CancelledBooking(b, x.pc.fee, x.pc.refund)]) else v
  }

  function Abs(x: int): int {
    if x < 0 then -x else x
  }

  /** The accounts after an act of the office. */
  function OfficeAccounts(w: World, act: OfficeAct): Accounts {
    match act
    case Register(c) => w.accounts[c := Company(0, 0, 0, 0)]
    case UpdateLimit(c, limit, readLimit, _, _) => if limit == readLimit then w.accounts else SetLimit(w.accounts, c, limit)
    case AdminTopUp(c, readWallet, amount, _) => SetWallet(w.accounts, c, readWallet + amount)
    case AdminRefund(b, readWallet, amount, paid, _) =>
      if b < |w.bookings| && amount > 0 && paid then SetWallet(w.accounts, w.bookings[b].company, readWallet + amount)
      else w.accounts
    case OverrideStatus(_, _) => w.accounts
    case RecordSettlement(_, _, _) => w.accounts
    case GatewayTopUp(c, amount) => AddWallet(w.accounts, c, amount)
    case WalletDeduction(c, amount) => AddWallet(w.accounts, c, -amount)
    case EarnPoints(c, _, points, _, _) => AddPoints(w.accounts, c, points)
    case RedeemPoints(c, points, value, _) => AddWallet(AddPoints(w.accounts, c, -points), c, value)
  }

  /** The ledger rows it writes: at most one. */
  function OfficeRows(w: World, act: OfficeAct): seq<Row>
    requires OfficeEnabled(w, act)
  {
    match act
    case UpdateLimit(c, limit, readLimit, readWallet, written) =>
      if !written then []
      else [Row(c, Adjustment, if limit >= readLimit then DirCredit else DirDebit, Abs(limit - readLimit),
                None, Some(limit + readWallet))]
    case AdminTopUp(c, readWallet, amount, written) =>
      if !written then [] else [Row(c, TopUp, DirCredit, amount, None, Some(readWallet + amount))]
    case AdminRefund(b, readWallet, amount, paid, written) =>
      var c := w.bookings[b].company;
      if !paid || !written || amount <= 0 || c !in w.accounts then []
      else [Row(c, CreditRefund, DirCredit, amount, Some(b), Some(readWallet + amount))]
    case RecordSettlement(c, readWallet, amount) => [Row(c, Settlement, DirCredit, amount, None, Some(readWallet))]
    case EarnPoints(c, b, _, value, written) =>
      if !written then [] else [Row(c, LoyaltyEarn, DirCredit, value, Some(b), Some(w.accounts[c].walletBalance))]
    case RedeemPoints(c, _, value, written) =>
      if !written then [] else [Row(c, LoyaltyRedeem, DirDebit, value, None, Some(w.accounts[c].walletBalance + value))]
    case _ => []
  }

  /** The bookings after it. */
  function OfficeBookings(w: World, act: OfficeAct): seq<Booking>
    requires OfficeEnabled(w, act)
  {
    match act
    case AdminRefund(b, _, amount, _, _) =>
      (match w.bookings[b].cancellation
       case None => w.bookings
       case Some(x) =>
         w.bookings[b := w.bookings[b].(cancellation := Some(x.(refund := amount, refundStatus := RefundProcessed)))])
    case OverrideStatus(b, status) => w.bookings[b := w.bookings[b].(status := status)]
    case _ => w.bookings
  }

  function ApplyOffice(w: World, act: OfficeAct): World
    requires OfficeEnabled(w, act)
  {
    w.(accounts := OfficeAccounts(w, act), bookings := OfficeBookings(w, act), ledger := w.ledger + OfficeRows(w, act))
  }

  function NewCancel(b: nat, c: CompanyId): Cancel {
    Cancel(b, c, false, 0, false, false, Asked)
  }

  function Apply(w: World, step: Step): World
    requires Enabled(w, step)
  {
    match step
    case StartBooking(c, m, total) => w.(sagas := w.sagas + [Saga(c, m, total, Priced)])
    case SagaStep(i, act) => ApplySaga(w, i, act)
    case StartCancel(b, c) => w.(cancels := w.cancels + [NewCancel(b, c)])
    case CancelStep(k, act) => ApplyCancel(w, k, act)
    case Office(act) => ApplyOffice(w, act)
  }

  // ── Runs ─────────────────────────────────────────────────────────────────────

  /** The world after the steps, or None if one of them is not enabled when it is taken. */
  function Exec(w: World, steps: seq<Step>): Option<World> {
    if steps == [] then Some(w)
    else
      var n := |steps| - 1;
      match Exec(w, steps[..n])
      case None => None
      case Some(v) => if Enabled(v, steps[n]) then Some(Apply(v, steps[n])) else None
  }

  /** The world just before the last step of a run. */
  function Before(w: World, steps: seq<Step>): (v: World)
    requires steps != [] && Exec(w, steps).Some?
    ensures Exec(w, steps[..|steps| - 1]) == Some(v)
    ensures Enabled(v, steps[|steps| - 1]) && Exec(w, steps).value == Apply(v, steps[|steps| - 1])
  {
    Exec(w, steps[..|steps| - 1]).value
  }

  /** A run goes on by one step. */
  lemma ExecStep(w: World, steps: seq<Step>, u: World, step: Step, v: World)
    requires Exec(w, steps) == Some(u) && Enabled(u, step) && v == Apply(u, step)
    ensures Exec(w, steps + [step]) == Some(v)
  {
    assert (steps + [step])[..|steps|] == steps;
  }

  lemma ExecOne(u: World, step: Step, v: World)
    requires Enabled(u, step) && v == Apply(u, step)
    ensures Exec(u, [step]) == Some(v)
  {
    assert [step][..0] == [];
  }

  /** Two runs, one after the other. */
  lemma {:induction false} ExecConcat(w: World, first: seq<Step>, u: World, second: seq<Step>, v: World)
    requires Exec(w, first) == Some(u) && Exec(u, second) == Some(v)
    ensures Exec(w, first + second) == Some(v)
  {
    if second == [] {
      assert first + [] == first;
    } else {
      var n := |second| - 1;
      var m := Before(u, second);
      ExecConcat(w, first, u, second[..n], m);
      ExecStep(w, first + second[..n], m, second[n], v);
      assert first + second == first + second[..n] + [second[n]];
    }
  }
}
