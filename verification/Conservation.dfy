/** Conservation of the agency's debt over every interleaving. */
module Conservation {
  import opened Wrappers
  import opened Sums
  import opened Companies
  import opened Protocol

  // ── Aggregates of a world, per company ───────────────────────────────────────

  /** The credit is deducted and the request has neither committed nor ended. */
  predicate Holding(s: Saga) {
    s.paymentMethod == Credit && (s.pc.Deducted? || s.pc.Compensating? || s.pc.Booked? || s.pc.Persisting?)
  }

  function HeldBy(c: CompanyId): Saga -> int {
    (s: Saga) => if s.company == c && Holding(s) then s.amount else 0
  }

  function StrandedBy(c: CompanyId): Saga -> int {
    (s: Saga) => if s.company == c && s.pc == Stranded then s.amount else 0
  }

  function CommittedBy(c: CompanyId): Saga -> int {
    (s: Saga) => if s.company == c && s.paymentMethod == Credit && s.pc.Committed? then s.amount else 0
  }

  function BilledBy(c: CompanyId): Booking -> int {
    (b: Booking) => if b.company == c && b.paymentMethod == Credit then b.totalAmount else 0
  }

  function CreditedBy(c: CompanyId): Cancel -> int {
    (k: Cancel) => if k.company == c then k.credited else 0
  }

  function LoggedBy(c: CompanyId): Cancel -> int {
    (k: Cancel) => if k.company == c && k.logged then k.credited else 0
  }

  function UnloggedBy(c: CompanyId): Cancel -> int {
    (k: Cancel) => if k.company == c && !k.logged then k.credited else 0
  }

  /** The rows assertion 1 of verify-ledger sums as debits. */
  function UseBy(c: CompanyId): Row -> int {
    (r: Row) => if r.company == c && r.kind == CreditUse && r.direction == DirDebit then r.amount else 0
  }

  /** The rows assertion 1 of verify-ledger sums as credits. */
  function RefundBy(c: CompanyId): Row -> int {
    (r: Row) => if r.company == c && r.kind == CreditRefund && r.direction == DirCredit then r.amount else 0
  }

  /** Of these, the rows of AdminService.refundBooking: they carry the wallet balance. */
  function AdminRefundBy(c: CompanyId): Row -> int {
    (r: Row) => if r.balanceAfter.Some? && r.company == c && r.kind == CreditRefund && r.direction == DirCredit then r.amount else 0
  }

  function CancelRefundBy(c: CompanyId): Row -> int {
    (r: Row) => if r.balanceAfter.None? && r.company == c && r.kind == CreditRefund && r.direction == DirCredit then r.amount else 0
  }

  function Outstanding(w: World, c: CompanyId): int {
    if c in w.accounts then w.accounts[c].outstandingBalance else 0
  }

  function Held(w: World, c: CompanyId): int { Sum(w.sagas, HeldBy(c)) }
  function StrandedSum(w: World, c: CompanyId): int { Sum(w.sagas, StrandedBy(c)) }
  function Billed(w: World, c: CompanyId): int { Sum(w.bookings, BilledBy(c)) }
  function Credited(w: World, c: CompanyId): int { Sum(w.cancels, CreditedBy(c)) }

  // ── The invariant ────────────────────────────────────────────────────────────

  /** Only a credit request of a known company, for a positive amount, holds or strands credit. */
  predicate SagaOk(known: set<CompanyId>, s: Saga) {
    && (Holding(s) || s.pc.Stranded? ==> s.paymentMethod == Credit && s.company in known && s.amount > 0)
    && (s.pc.Deducted? || s.pc.Compensating? ==> s.paymentMethod == Credit)
    && (s.pc.Committed? && s.paymentMethod == Credit ==> s.company in known && s.amount > 0)
  }

  predicate BookingOk(known: set<CompanyId>, b: Booking) {
    b.paymentMethod == Credit ==> b.company in known && b.totalAmount > 0
  }

  /** `credited` moves only after the supplier's call returned, and only on a credit booking of the same company. */
  predicate CancelOk(bookings: seq<Booking>, k: Cancel) {
    && k.booking < |bookings|
    && k.company == bookings[k.booking].company
    && (k.credited != 0 ==> bookings[k.booking].paymentMethod == Credit && k.returned && k.credited > 0)
    && (k.pc == Asked || k.pc.Accepted? ==> k.credited == 0 && !k.logged)
    && (k.pc == Asked ==> !k.returned)
    && (k.pc.Accepted? || k.pc.RowDue? || k.pc.SaveDue? ==> k.returned)
    && (k.pc.RowDue? ==> !k.logged && k.credited != 0)
    && (k.saved ==> k.pc == Done)
  }

  /** Only CREDIT_USE rows are debits that refer to a booking. */
  predicate RowOk(count: nat, r: Row) {
    && (r.refBooking.Some? ==> r.refBooking.value < count)
    && (r.kind == CreditUse ==> r.direction == DirDebit)
    && (r.direction == DirDebit && r.refBooking.Some? ==> r.kind == CreditUse)
  }

  predicate SagasOk(w: World) {
    forall i :: 0 <= i < |w.sagas| ==> SagaOk(w.accounts.Keys, w.sagas[i])
  }

  predicate BookingsOk(w: World) {
    forall i :: 0 <= i < |w.bookings| ==> BookingOk(w.accounts.Keys, w.bookings[i])
  }

  predicate CancelsOk(w: World) {
    forall i :: 0 <= i < |w.cancels| ==> CancelOk(w.bookings, w.cancels[i])
  }

  predicate RowsOk(w: World) {
    forall i :: 0 <= i < |w.ledger| ==> RowOk(|w.bookings|, w.ledger[i])
  }

  predicate WellFormed(w: World) {
    SagasOk(w) && BookingsOk(w) && CancelsOk(w) && RowsOk(w)
  }

  /** The debt, the ledger and the requests agree. */
  predicate Balanced(w: World, c: CompanyId) {
    && Outstanding(w, c) == Held(w, c) + StrandedSum(w, c) + Billed(w, c) - Credited(w, c)
    && Sum(w.ledger, UseBy(c)) == Billed(w, c)
    && Sum(w.ledger, CancelRefundBy(c)) == Sum(w.cancels, LoggedBy(c))
    && Sum(w.sagas, CommittedBy(c)) == Billed(w, c)
  }

  /** Two lists of bookings with the same owners, methods and totals, as far as the first goes. */
  predicate Extends(was: seq<Booking>, now: seq<Booking>) {
    && |was| <= |now|
    && forall b :: 0 <= b < |was| ==>
         && now[b].company == was[b].company
         && now[b].paymentMethod == was[b].paymentMethod
         && now[b].totalAmount == was[b].totalAmount
         && now[b].supplierRef == was[b].supplierRef
  }

  /** Companies, bookings and rows are never removed, and a booking keeps its company, method, total and supplier. */
  lemma Grows(w: World, step: Step)
    requires Enabled(w, step)
    ensures w.accounts.Keys <= Apply(w, step).accounts.Keys
    ensures Extends(w.bookings, Apply(w, step).bookings)
    ensures w.ledger <= Apply(w, step).ledger
  {
  }

  /** The cancel requests after a step: one more, one moved on, or the same. */
  lemma CancelsMove(w: World, step: Step)
    requires Enabled(w, step)
    ensures Apply(w, step).cancels ==
      match step
      case StartCancel(b, c) => w.cancels + [NewCancel(b, c)]
      case CancelStep(k, act) => w.cancels[k := NextCancel(w.bookings[w.cancels[k].booking], w.cancels[k], act)]
      case _ => w.cancels
  {
  }

  lemma SagasStep(w: World, step: Step)
    requires SagasOk(w) && Enabled(w, step)
    ensures SagasOk(Apply(w, step))
  {
    Grows(w, step);
  }

  lemma BookingsStep(w: World, step: Step)
    requires SagasOk(w) && BookingsOk(w) && Enabled(w, step)
    ensures BookingsOk(Apply(w, step))
  {
    Grows(w, step);
  }

  lemma CancelsStep(w: World, step: Step)
    requires BookingsOk(w) && CancelsOk(w) && Enabled(w, step)
    ensures CancelsOk(Apply(w, step))
  {
    Grows(w, step);
    CancelsMove(w, step);
  }

  lemma RowsStep(w: World, step: Step)
    requires RowsOk(w) && CancelsOk(w) && Enabled(w, step)
    ensures RowsOk(Apply(w, step))
  {
    Grows(w, step);
  }

  // ── Every step keeps the balance ─────────────────────────────────────────────

  lemma SagaMoves(w: World, i: nat, s: Saga, c: CompanyId)
    requires i < |w.sagas|
    ensures Sum(w.sagas[i := s], HeldBy(c)) == Held(w, c) - HeldBy(c)(w.sagas[i]) + HeldBy(c)(s)
    ensures Sum(w.sagas[i := s], StrandedBy(c)) == StrandedSum(w, c) - StrandedBy(c)(w.sagas[i]) + StrandedBy(c)(s)
    ensures Sum(w.sagas[i := s], CommittedBy(c)) == Sum(w.sagas, CommittedBy(c)) - CommittedBy(c)(w.sagas[i]) + CommittedBy(c)(s)
  {
    Update(w.sagas, i, s, HeldBy(c));
    Update(w.sagas, i, s, StrandedBy(c));
    Update(w.sagas, i, s, CommittedBy(c));
  }

  lemma CancelMoves(w: World, k: nat, x: Cancel, c: CompanyId)
    requires k < |w.cancels|
    ensures Sum(w.cancels[k := x], CreditedBy(c)) == Credited(w, c) - CreditedBy(c)(w.cancels[k]) + CreditedBy(c)(x)
    ensures Sum(w.cancels[k := x], LoggedBy(c)) == Sum(w.cancels, LoggedBy(c)) - LoggedBy(c)(w.cancels[k]) + LoggedBy(c)(x)
  {
    Update(w.cancels, k, x, CreditedBy(c));
    Update(w.cancels, k, x, LoggedBy(c));
  }

  lemma RowAdded(w: World, r: Row, c: CompanyId)
    ensures Sum(w.ledger + [r], UseBy(c)) == Sum(w.ledger, UseBy(c)) + UseBy(c)(r)
    ensures Sum(w.ledger + [r], CancelRefundBy(c)) == Sum(w.ledger, CancelRefundBy(c)) + CancelRefundBy(c)(r)
  {
    Append(w.ledger, r, UseBy(c));
    Append(w.ledger, r, CancelRefundBy(c));
  }

  lemma SagaStarts(w: World, c: CompanyId, s: Saga, v: World)
    requires Balanced(w, c) && s.pc == Priced && v == w.(sagas := w.sagas + [s])
    ensures Balanced(v, c)
  {
    Append(w.sagas, s, HeldBy(c));
    Append(w.sagas, s, StrandedBy(c));
    Append(w.sagas, s, CommittedBy(c));
  }

  lemma CancelStarts(w: World, c: CompanyId, x: Cancel, v: World)
    requires Balanced(w, c) && x.credited == 0 && v == w.(cancels := w.cancels + [x])
    ensures Balanced(v, c)
  {
    Append(w.cancels, x, CreditedBy(c));
    Append(w.cancels, x, LoggedBy(c));
  }

  /** What an act adds to the debt it adds to the credit held, stranded or committed; a commit bills the saga's amount. */
  lemma SagaWeights(w: World, i: nat, act: SagaAct, t: Saga, c: CompanyId)
    requires i < |w.sagas| && SagaOk(w.accounts.Keys, w.sagas[i]) && SagaEnabled(w, i, act)
    requires t == w.sagas[i].(pc := NextPc(w, w.sagas[i], act))
    ensures HeldBy(c)(t) + StrandedBy(c)(t) + CommittedBy(c)(t) ==
            HeldBy(c)(w.sagas[i]) + StrandedBy(c)(w.sagas[i]) + CommittedBy(c)(w.sagas[i])
            + if t.company == c then DebtOf(w.sagas[i], act) else 0
    ensures CommittedBy(c)(t) - CommittedBy(c)(w.sagas[i]) ==
            if act.Commit? && t.paymentMethod == Credit && t.company == c then t.amount else 0
    ensures DebtOf(w.sagas[i], act) != 0 ==> t.company in w.accounts
  {
  }

  lemma CommitSums(w: World, s: Saga, now: int, c: CompanyId)
    requires s.pc.Persisting?
    ensures var billed := if s.paymentMethod == Credit && s.company == c then s.amount else 0;
            var ledger := w.ledger + if s.paymentMethod == Credit then [UseRow(s, |w.bookings|)] else [];
            && Sum(w.bookings + [NewBooking(s, now)], BilledBy(c)) == Billed(w, c) + billed
            && Sum(ledger, UseBy(c)) == Sum(w.ledger, UseBy(c)) + billed
            && Sum(ledger, CancelRefundBy(c)) == Sum(w.ledger, CancelRefundBy(c))
  {
    Append(w.bookings, NewBooking(s, now), BilledBy(c));
    RowAdded(w, UseRow(s, |w.bookings|), c);
    assert w.ledger + [] == w.ledger;
  }

  /** The bookings and rows an act adds are billed and used by its company, for its amount. */
  lemma SagaRows(w: World, i: nat, act: SagaAct, c: CompanyId)
    requires i < |w.sagas| && SagaEnabled(w, i, act)
    ensures var v := ApplySaga(w, i, act);
            var billed := if act.Commit? && w.sagas[i].paymentMethod == Credit && w.sagas[i].company == c then w.sagas[i].amount else 0;
            && Billed(v, c) == Billed(w, c) + billed
            && Sum(v.ledger, UseBy(c)) == Sum(w.ledger, UseBy(c)) + billed
            && Sum(v.ledger, CancelRefundBy(c)) == Sum(w.ledger, CancelRefundBy(c))
  {
    if act.Commit? {
      CommitSums(w, w.sagas[i], act.now, c);
    } else {
      assert ApplySaga(w, i, act).bookings == w.bookings && ApplySaga(w, i, act).ledger == w.ledger;
    }
  }

  lemma DebtAdded(w: World, d: CompanyId, amount: int, v: World, c: CompanyId)
    requires (amount != 0 ==> d in w.accounts) && v.accounts == AddOutstanding(w.accounts, d, amount)
    ensures Outstanding(v, c) == Outstanding(w, c) + if d == c then amount else 0
  {
  }

  lemma SagaAccounts(w: World, i: nat, act: SagaAct)
    requires i < |w.sagas| && SagaEnabled(w, i, act)
    ensures var s := w.sagas[i];
            var v := ApplySaga(w, i, act);
            && v.accounts == AddOutstanding(w.accounts, s.company, DebtOf(s, act))
            && v.sagas == w.sagas[i := s.(pc := NextPc(w, s, act))]
            && v.cancels == w.cancels
  {
  }

  lemma SagaSums(w: World, i: nat, act: SagaAct, sagas: seq<Saga>, c: CompanyId)
    requires SagasOk(w) && i < |w.sagas| && SagaEnabled(w, i, act)
    requires sagas == w.sagas[i := w.sagas[i].(pc := NextPc(w, w.sagas[i], act))]
    ensures var s := w.sagas[i];
      && Sum(sagas, HeldBy(c)) + Sum(sagas, StrandedBy(c)) + Sum(sagas, CommittedBy(c))
         == Held(w, c) + StrandedSum(w, c) + Sum(w.sagas, CommittedBy(c)) + (if s.company == c then DebtOf(s, act) else 0)
      && Sum(sagas, CommittedBy(c)) == Sum(w.sagas, CommittedBy(c))
         + (if act.Commit? && s.paymentMethod == Credit && s.company == c then s.amount else 0)
  {
    var t := w.sagas[i].(pc := NextPc(w, w.sagas[i], act));
    assert SagaOk(w.accounts.Keys, w.sagas[i]);
    SagaWeights(w, i, act, t, c);
    SagaMoves(w, i, t, c);
  }

  /** Debt and held credit move together, and what is committed is billed and used. */
  lemma Rebalanced(w: World, v: World, c: CompanyId, debt: int, billed: int)
    requires Balanced(w, c) && v.cancels == w.cancels
    requires Outstanding(v, c) == Outstanding(w, c) + debt
    requires Held(v, c) + StrandedSum(v, c) + Sum(v.sagas, CommittedBy(c))
          == Held(w, c) + StrandedSum(w, c) + Sum(w.sagas, CommittedBy(c)) + debt
    requires Sum(v.sagas, CommittedBy(c)) == Sum(w.sagas, CommittedBy(c)) + billed
    requires Billed(v, c) == Billed(w, c) + billed && Sum(v.ledger, UseBy(c)) == Sum(w.ledger, UseBy(c)) + billed
    requires Sum(v.ledger, CancelRefundBy(c)) == Sum(w.ledger, CancelRefundBy(c))
    ensures Balanced(v, c)
  {
  }

  lemma SagaBalanced(w: World, i: nat, act: SagaAct, v: World, c: CompanyId)
    requires SagasOk(w) && Balanced(w, c) && i < |w.sagas| && SagaEnabled(w, i, act) && v == ApplySaga(w, i, act)
    ensures Balanced(v, c)
  {
    var s := w.sagas[i];
    var debt := if s.company == c then DebtOf(s, act) else 0;
    var billed := if act.Commit? && s.paymentMethod == Credit && s.company == c then s.amount else 0;
    SagaAccounts(w, i, act);
    SagaSums(w, i, act, v.sagas, c);
    SagaRows(w, i, act, c);
    SagaDebtKnown(w, i, act);
    DebtAdded(w, s.company, DebtOf(s, act), v, c);
    Rebalanced(w, v, c, debt, billed);
  }

  /** Only a known company's debt moves. */
  lemma SagaDebtKnown(w: World, i: nat, act: SagaAct)
    requires SagasOk(w) && i < |w.sagas| && SagaEnabled(w, i, act)
    ensures DebtOf(w.sagas[i], act) != 0 ==> w.sagas[i].company in w.accounts
  {
    assert SagaOk(w.accounts.Keys, w.sagas[i]);
  }

  /** What creditBack returns leaves the debt; what is logged is what the ledger row says. */
  lemma CancelWeights(w: World, k: nat, act: CancelAct, next: Cancel, c: CompanyId)
    requires k < |w.cancels| && CancelOk(w.bookings, w.cancels[k]) && CancelEnabled(w, k, act)
    requires next == NextCancel(w.bookings[w.cancels[k].booking], w.cancels[k], act)
    ensures CreditedBy(c)(next) - CreditedBy(c)(w.cancels[k]) == if next.company == c then CreditedNow(w, k, act) else 0
    ensures LoggedBy(c)(next) - LoggedBy(c)(w.cancels[k]) ==
            if act.LogCancel? && act.written && next.company == c then w.cancels[k].credited else 0
  {
  }

  function CreditedNow(w: World, k: nat, act: CancelAct): int
    requires k < |w.cancels| && CancelEnabled(w, k, act)
  {
    if act.CreditCancel? && act.applied then Refundable(w.bookings[w.cancels[k].booking], w.cancels[k].pc.fee) else 0
  }

  lemma CancelRows(w: World, k: nat, act: CancelAct, c: CompanyId)
    requires k < |w.cancels| && CancelEnabled(w, k, act)
    ensures var v := ApplyCancel(w, k, act);
            && Billed(v, c) == Billed(w, c)
            && Sum(v.ledger, UseBy(c)) == Sum(w.ledger, UseBy(c))
            && Sum(v.ledger, CancelRefundBy(c)) == Sum(w.ledger, CancelRefundBy(c))
               + if act.LogCancel? && act.written && w.cancels[k].company == c then w.cancels[k].credited else 0
  {
    var x := w.cancels[k];
    var b := w.bookings[x.booking];
    if act.LogCancel? {
      RowAdded(w, RefundRow(x), c);
    }
    if act.SaveCancel? {
      Update(w.bookings, x.booking, CancelledBooking(b, x.pc.fee, x.pc.refund), BilledBy(c));
    }
  }

  lemma CancelAccounts(w: World, k: nat, act: CancelAct)
    requires k < |w.cancels| && CancelEnabled(w, k, act)
    ensures var x := w.cancels[k];
            var v := ApplyCancel(w, k, act);
            && v.accounts == AddOutstanding(w.accounts, x.company, -CreditedNow(w, k, act))
            && v.cancels == w.cancels[k := NextCancel(w.bookings[x.booking], x, act)]
            && v.sagas == w.sagas
  {
    assert AddOutstanding(w.accounts, w.cancels[k].company, 0) == w.accounts;
  }

  lemma CancelBalanced(w: World, k: nat, act: CancelAct, v: World, c: CompanyId)
    requires CancelsOk(w) && BookingsOk(w) && Balanced(w, c) && k < |w.cancels| && CancelEnabled(w, k, act)
    requires v == ApplyCancel(w, k, act)
    ensures Balanced(v, c)
  {
    var x := w.cancels[k];
    var b := w.bookings[x.booking];
    var next := NextCancel(b, x, act);
    assert CancelOk(w.bookings, x) && BookingOk(w.accounts.Keys, b);
    CancelWeights(w, k, act, next, c);
    CancelAccounts(w, k, act);
    CancelRows(w, k, act, c);
    CancelMoves(w, k, next, c);
    DebtAdded(w, x.company, -CreditedNow(w, k, act), v, c);
  }

  /** The office never touches the debt; its rows are ignored by assertion 1 or carry a balance. */
  lemma OfficeBalanced(w: World, act: OfficeAct, c: CompanyId)
    requires Balanced(w, c) && OfficeEnabled(w, act)
    ensures Balanced(ApplyOffice(w, act), c)
  {
    OfficeKeepsBilled(w, act, c);
    OfficeRowsIgnored(w, act, c);
    OfficeKeepsDebt(w, act, ApplyOffice(w, act), c);
  }

  lemma OfficeKeepsDebt(w: World, act: OfficeAct, v: World, c: CompanyId)
    requires OfficeEnabled(w, act) && v.accounts == OfficeAccounts(w, act)
    ensures Outstanding(v, c) == Outstanding(w, c)
  {
  }

  /** What the other balances of a known company become: each act names the one it moves, and by how much. */
  lemma OfficeMoves(w: World, act: OfficeAct, v: World, c: CompanyId)
    requires OfficeEnabled(w, act) && v.accounts == OfficeAccounts(w, act) && c in w.accounts
    ensures c in v.accounts
    ensures v.accounts[c].creditLimit == match act
      case UpdateLimit(d, limit, readLimit, _, _) => if d == c && limit != readLimit then limit else w.accounts[c].creditLimit
      case _ => w.accounts[c].creditLimit
    ensures v.accounts[c].walletBalance == match act
      case AdminTopUp(d, readWallet, amount, _) => if d == c then readWallet + amount else w.accounts[c].walletBalance
      case AdminRefund(b, readWallet, amount, paid, _) =>
        if w.bookings[b].company == c && amount > 0 && paid then readWallet + amount else w.accounts[c].walletBalance
      case GatewayTopUp(d, amount) => w.accounts[c].walletBalance + if d == c then amount else 0
      case WalletDeduction(d, amount) => w.accounts[c].walletBalance - if d == c then amount else 0
      case RedeemPoints(d, _, value, _) => w.accounts[c].walletBalance + if d == c then value else 0
      case _ => w.accounts[c].walletBalance
    ensures v.accounts[c].loyaltyPoints == match act
      case EarnPoints(d, _, points, _, _) => w.accounts[c].loyaltyPoints + if d == c then points else 0
      case RedeemPoints(d, points, _, _) => w.accounts[c].loyaltyPoints - if d == c then points else 0
      case _ => w.accounts[c].loyaltyPoints
  {
  }

  /** When the acts that no method here performs may happen. */
  lemma OfficeAllowed(w: World, c: CompanyId, amount: int, points: int, value: int, written: bool)
    ensures OfficeEnabled(w, Register(c)) <==> c !in w.accounts
    ensures OfficeEnabled(w, GatewayTopUp(c, amount)) <==> amount >= 1
    ensures OfficeEnabled(w, WalletDeduction(c, amount)) <==> c in w.accounts && 1 <= amount <= w.accounts[c].walletBalance
    ensures OfficeEnabled(w, RedeemPoints(c, points, value, written)) <==> c in w.accounts && points >= 1 && value >= 0
  {
  }

  /** Acts without a ledger row: registration, status overrides, gateway top-ups and wallet deductions; a redemption logs what it paid. */
  lemma OfficeWrites(w: World, act: OfficeAct)
    requires OfficeEnabled(w, act)
    ensures act.Register? || act.OverrideStatus? || act.GatewayTopUp? || act.WalletDeduction? ==> OfficeRows(w, act) == []
    ensures act.RedeemPoints? && act.written ==>
      OfficeRows(w, act) == [Row(act.company, LoyaltyRedeem, DirDebit, act.value, None, Some(w.accounts[act.company].walletBalance + act.value))]
  {
  }

  lemma OfficeKeepsBilled(w: World, act: OfficeAct, c: CompanyId)
    requires OfficeEnabled(w, act)
    ensures Sum(OfficeBookings(w, act), BilledBy(c)) == Billed(w, c)
  {
    if act.AdminRefund? || act.OverrideStatus? {
      Update(w.bookings, act.booking, OfficeBookings(w, act)[act.booking], BilledBy(c));
      assert OfficeBookings(w, act) == w.bookings[act.booking := OfficeBookings(w, act)[act.booking]];
    }
  }

  lemma OfficeRowsIgnored(w: World, act: OfficeAct, c: CompanyId)
    requires OfficeEnabled(w, act)
    ensures Sum(w.ledger + OfficeRows(w, act), UseBy(c)) == Sum(w.ledger, UseBy(c))
    ensures Sum(w.ledger + OfficeRows(w, act), CancelRefundBy(c)) == Sum(w.ledger, CancelRefundBy(c))
  {
    var rows := OfficeRows(w, act);
    if rows == [] {
      assert w.ledger + rows == w.ledger;
    } else {
      assert rows == [rows[0]];
      RowAdded(w, rows[0], c);
    }
  }

  lemma BalancedStep(w: World, step: Step, c: CompanyId)
    requires WellFormed(w) && Balanced(w, c) && Enabled(w, step)
    ensures Balanced(Apply(w, step), c)
  {
    match step
    case StartBooking(d, m, total) => SagaStarts(w, c, Saga(d, m, total, Priced), Apply(w, step));
    case SagaStep(i, act) => SagaBalanced(w, i, act, Apply(w, step), c);
    case StartCancel(b, d) => CancelStarts(w, c, NewCancel(b, d), Apply(w, step));
    case CancelStep(k, act) => CancelBalanced(w, k, act, Apply(w, step), c);
    case Office(act) => OfficeBalanced(w, act, c);
  }

  /** The invariant holds after every run, for every company. */
  lemma {:induction false} Invariant(steps: seq<Step>, w: World, c: CompanyId)
    requires Exec(Empty(), steps) == Some(w)
    ensures WellFormed(w) && Balanced(w, c)
  {
    if steps != [] {
      var v := Before(Empty(), steps);
      var step := steps[|steps| - 1];
      Invariant(steps[..|steps| - 1], v, c);
      SagasStep(v, step);
      BookingsStep(v, step);
      CancelsStep(v, step);
      RowsStep(v, step);
      BalancedStep(v, step, c);
    }
  }

  // ── Theorems ─────────────────────────────────────────────────────────────────

  /** The debt, in terms of the ledger as verify-ledger reads it. */
  lemma {:induction false} LedgerIdentity(steps: seq<Step>, w: World, c: CompanyId)
    requires Exec(Empty(), steps) == Some(w)
    ensures Outstanding(w, c) == Sum(w.ledger, UseBy(c)) - Sum(w.ledger, RefundBy(c))
                              + Held(w, c) + StrandedSum(w, c)
                              + Sum(w.ledger, AdminRefundBy(c)) - Sum(w.cancels, UnloggedBy(c))
  {
    Invariant(steps, w, c);
    Split(w.ledger, RefundBy(c), AdminRefundBy(c), CancelRefundBy(c));
    Split(w.cancels, CreditedBy(c), LoggedBy(c), UnloggedBy(c));
  }
}
