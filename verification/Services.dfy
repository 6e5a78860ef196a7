/**
  The services as they run: createBooking, cancelBooking and the administrator's operations,
  written over stored collections. Each part between two awaits is a method that takes exactly
  one step of the protocol; each operation, run on its own, is a run of the protocol. The answers
  of the supplier and the fate of each write are parameters.
*/
module Services {
  import opened Wrappers
  import opened Companies
  import opened BookingRefs
  import opened Protocol

  datatype Failure =
    | InvalidRequest
    | PrebookFailed
    | NoCredit
    | SupplierError          // 502, after a call that threw
    | NotConfirmed
    | DatabaseError          // a write whose outcome the caller did not see
    | TransactionFailed
    | BookingNotFound
    | WrongStatus
    | NoSupplierReference
    | CompanyNotFound

  /** A call of awardLoyaltyPoints. */
  datatype Award = Award(company: CompanyId, totalAmount: int, booking: nat)

  datatype Reply<+T> = Success(value: T) | Rejected(why: Failure)

  /** The collections. The requests in flight are recorded for the proofs only. */
  class Store {
    const companies: CompaniesService
    var bookings: seq<Booking>
    var ledger: seq<Row>
    var counters: map<nat, nat>
    ghost var issued: seq<RefNumber>
    ghost var sagas: seq<Saga>
    ghost var cancels: seq<Cancel>

    constructor (companies: CompaniesService)
      ensures this.companies == companies
      ensures View() == Empty().(accounts := companies.accounts)
    {
      this.companies := companies;
      bookings, ledger, counters := [], [], map[];
      issued, sagas, cancels := [], [], [];
    }

    ghost function View(): World
      reads this, companies
    {
      World(companies.accounts, bookings, ledger, counters, issued, sagas, cancels)
    }

    // ── createBooking, one await at a time ─────────────────────────────────────

    ghost method Price(company: CompanyId, m: Method, total: int)
      modifies this
      ensures View() == Apply(old(View()), StartBooking(company, m, total))
    {
      sagas := sagas + [Saga(company, m, total, Priced)];
    }

    method TakeCredit(company: CompanyId, total: int, acked: bool, ghost i: nat) returns (taken: bool)
      requires i < |sagas| && sagas[i] == Saga(company, Credit, total, Priced)
      modifies this, companies
      ensures taken <==> Deduct(old(companies.accounts), company, total).Some?
      ensures companies.accounts ==
        if taken then Deduct(old(companies.accounts), company, total).value else old(companies.accounts)
      ensures View() == ApplySaga(old(View()), i, if taken then DeductCredit(acked) else RefuseCredit)
    {
      var r := companies.AtomicDeductCredit(company, total);
      taken := r.Ok?;
      sagas := sagas[i := sagas[i].(pc := if taken then if acked then Deducted else Stranded else Refused)];
      assert !taken ==> AddOutstanding(companies.accounts, company, 0) == companies.accounts;
    }

    ghost method HearSupplier(answer: BookAnswer, i: nat)
      requires i < |sagas| && SagaEnabled(View(), i, SupplierBooks(answer))
      modifies this
      ensures View() == ApplySaga(old(View()), i, SupplierBooks(answer))
    {
      assert AddOutstanding(companies.accounts, sagas[i].company, 0) == companies.accounts;
      sagas := sagas[i := sagas[i].(pc := AfterBook(sagas[i].paymentMethod, answer))];
    }

    method RollBack(company: CompanyId, total: int, applied: bool, ghost i: nat)
      requires i < |sagas| && sagas[i].company == company && sagas[i].amount == total && sagas[i].pc == Compensating
      modifies this, companies
      ensures View() == ApplySaga(old(View()), i, GiveBack(applied))
    {
      assert AddOutstanding(companies.accounts, company, 0) == companies.accounts;
      if applied {
        companies.CreditBack(company, total);
      }
      sagas := sagas[i := sagas[i].(pc := if applied then Compensated else Stranded)];
    }

    /** findOneAndUpdate with upsert on the year's counter, outside the session. */
    method GenerateBookingRef(year: nat, ghost i: nat) returns (bookingRef: string)
      requires i < |sagas| && (sagas[i].pc.Booked? || sagas[i].pc.Persisting?)
      modifies this
      ensures View() == ApplySaga(old(View()), i, IssueRef(year))
      ensures sagas[i].pc.Persisting? && bookingRef == Print(sagas[i].pc.number)
      ensures sagas[i] == old(sagas[i]).(pc := Persisting(old(sagas[i].pc.outcome), sagas[i].pc.number)) && |sagas| == old(|sagas|)
    {
      assert AddOutstanding(companies.accounts, sagas[i].company, 0) == companies.accounts;
      var seqNo := 1 + if year in counters then counters[year] else 0;
      counters := counters[year := seqNo];
      bookingRef := Print(RefNumber(year, seqNo));
      ghost var n := RefNumber(year, seqNo);
      issued := issued + [n];
      sagas := sagas[i := sagas[i].(pc := Persisting(sagas[i].pc.outcome, n))];
    }

    /** The transaction: the booking and, for credit, its ledger row are stored together. */
    method Persist(bookingRef: string, company: CompanyId, m: Method, total: int, outcome: Outcome, now: int, ghost i: nat) returns (id: nat)
      requires i < |sagas| && sagas[i].pc.Persisting? && bookingRef == Print(sagas[i].pc.number)
      requires sagas[i] == Saga(company, m, total, Persisting(outcome, sagas[i].pc.number))
      modifies this
      ensures id == old(|bookings|) && View() == ApplySaga(old(View()), i, Commit(now))
    {
      assert AddOutstanding(companies.accounts, company, 0) == companies.accounts;
      id := |bookings|;
      var refund := if outcome.refundDue then Some(Cancellation(0, total, RefundPending)) else None;
      bookings := bookings + [Booking(bookingRef, company, m, outcome.status, total, outcome.supplierRef, refund, now)];
      if m == Credit {
        ledger := ledger + [Row(company, CreditUse, DirDebit, total, Some(id), None)];
      }
      sagas := sagas[i := sagas[i].(pc := Committed(id))];
    }

    ghost method GiveUp(i: nat)
      requires i < |sagas| && (sagas[i].pc.Booked? || sagas[i].pc.Persisting?)
      modifies this
      ensures View() == ApplySaga(old(View()), i, Abort)
    {
      assert AddOutstanding(companies.accounts, sagas[i].company, 0) == companies.accounts;
      sagas := sagas[i := sagas[i].(pc := if sagas[i].paymentMethod == Credit then Stranded else NotStored)];
    }

    // ── cancelBooking, one await at a time ─────────────────────────────────────

    ghost method Ask(b: nat, company: CompanyId)
      requires Cancellable(View(), b, company)
      modifies this
      ensures View() == Apply(old(View()), StartCancel(b, company))
    {
      cancels := cancels + [NewCancel(b, company)];
    }

    ghost method HearCancel(answer: CancelAnswer, k: nat)
      requires k < |cancels| && CancelEnabled(View(), k, SupplierCancels(answer))
      modifies this
      ensures View() == ApplyCancel(old(View()), k, SupplierCancels(answer))
    {
      cancels := cancels[k := NextCancel(bookings[cancels[k].booking], cancels[k], SupplierCancels(answer))];
    }

    /** The credit given back, if any; says whether the ledger row is to be written. */
    method ReturnCredit(b: nat, company: CompanyId, fee: int, applied: bool, acked: bool, ghost k: nat) returns (rowDue: bool)
      requires k < |cancels| && cancels[k].booking == b < |bookings| && cancels[k].company == company
      requires cancels[k].pc.Accepted? && cancels[k].pc.fee == fee
      modifies this, companies
      ensures View() == ApplyCancel(old(View()), k, CreditCancel(applied, acked))
      ensures companies.accounts ==
        AddOutstanding(old(companies.accounts), company, if applied then -Refundable(bookings[b], fee) else 0)
      ensures bookings == old(bookings) && ledger == old(ledger)
      ensures |cancels| == old(|cancels|) && cancels[k].booking == b && cancels[k].company == company
      ensures cancels[k].pc == if rowDue then RowDue(fee, old(cancels[k].pc.refund)) else SaveDue(fee, old(cancels[k].pc.refund))
      ensures rowDue <==> applied && acked && bookings[b].paymentMethod == Credit && fee < bookings[b].totalAmount
      ensures rowDue ==> cancels[k].credited == bookings[b].totalAmount - fee
    {
      rowDue := false;
      assert AddOutstanding(companies.accounts, company, 0) == companies.accounts;
      if bookings[b].paymentMethod == Credit {
        var refundableAmount := bookings[b].totalAmount - fee;
        if refundableAmount > 0 && applied {
          companies.CreditBack(company, refundableAmount);
          rowDue := acked;
        }
      }
      cancels := cancels[k := NextCancel(bookings[b], cancels[k], CreditCancel(applied, acked))];
    }

    method WriteRefundRow(b: nat, company: CompanyId, amount: int, written: bool, ghost k: nat)
      requires k < |cancels| && CancelEnabled(View(), k, LogCancel(written))
      requires cancels[k].booking == b && cancels[k].company == company && cancels[k].credited == amount
      modifies this
      ensures View() == ApplyCancel(old(View()), k, LogCancel(written))
      ensures |cancels| == old(|cancels|) && bookings == old(bookings)
      ensures cancels[k].booking == b && cancels[k].pc == SaveDue(old(cancels[k].pc.fee), old(cancels[k].pc.refund))
      ensures ledger == old(ledger) + if written then [Row(company, CreditRefund, DirCredit, amount, Some(b), None)] else []
    {
      assert ledger + [] == ledger;
      if written {
        ledger := ledger + [Row(company, CreditRefund, DirCredit, amount, Some(b), None)];
      }
      cancels := cancels[k := NextCancel(bookings[b], cancels[k], LogCancel(written))];
    }

    method SaveBooking(b: nat, fee: int, refund: int, saved: bool, ghost k: nat)
      requires k < |cancels| && CancelEnabled(View(), k, SaveCancel(saved))
      requires cancels[k].booking == b && cancels[k].pc == SaveDue(fee, refund)
      modifies this
      ensures View() == ApplyCancel(old(View()), k, SaveCancel(saved))
      ensures ledger == old(ledger)
      ensures bookings == if saved then old(bookings)[b := CancelledBooking(old(bookings)[b], fee, refund)] else old(bookings)
    {
      if saved {
        var refundStatus := if bookings[b].paymentMethod == Online then RefundPending else RefundProcessed;
        bookings := bookings[b := bookings[b].(status := Cancelled, cancellation := Some(Cancellation(fee, refund, refundStatus)))];
      }
      cancels := cancels[k := cancels[k].(saved := saved, pc := Done)];
    }
  }

  // ── Whole operations ─────────────────────────────────────────────────────────

  /** What the outside world does during one createBooking: `years` has one entry per transaction attempt. */
  datatype CreateEnv = CreateEnv(deduct: Write, answer: BookAnswer, rollback: Write, years: seq<nat>, commit: Write, now: int) {
    /** Whether a booking is stored once the supplier's answer calls for one. */
    predicate Keeps() {
      years != [] && commit.Took()
    }
  }

  datatype CancelEnv = CancelEnv(answer: CancelAnswer, credit: Write, row: Write, save: Write)

  predicate OfSaga(trace: seq<Step>, i: nat) {
    forall n :: 0 <= n < |trace| ==> trace[n].SagaStep? && trace[n].saga == i
  }

  predicate OfCancel(trace: seq<Step>, k: nat) {
    forall n :: 0 <= n < |trace| ==> trace[n].CancelStep? && trace[n].cancel == k
  }

  /** What an online booking is stored as, by the supplier's answer. */
  function OnlineOutcome(answer: BookAnswer): Outcome {
    match answer
    case Threw => Outcome(Failed, None, true)
    case Answered(confirmed, supplierRef) => Outcome(if confirmed then Confirmed else Failed, supplierRef, false)
  }

  /** All steps but the first belong to saga i. */
  predicate OneSaga(trace: seq<Step>, start: Step, i: nat) {
    trace != [] && trace[0] == start && OfSaga(trace[1..], i)
  }

  /**
    What a cancellation that the supplier took does: if creditBack took effect, the debt of the company
    drops by total less fee for a credit booking whose fee is less than its total; if it was also
    acknowledged, that amount is logged unless the row is lost; if the save took effect, the booking is
    cancelled with what the supplier said. Nothing else changes.
  */
  predicate CarriedOut(accounts: Accounts, bookings: seq<Booking>, ledger: seq<Row>,
                       accounts': Accounts, bookings': seq<Booking>, ledger': seq<Row>, b: nat, company: CompanyId, env: CancelEnv)
    requires b < |bookings| && env.answer.Returned?
  {
    var was, fee, refund := bookings[b], env.answer.fee, env.answer.refund;
    var due := was.paymentMethod == Credit && fee < was.totalAmount;
    && DebtMoved(accounts, accounts', company, if env.credit.Took() && due then fee - was.totalAmount else 0)
    && ledger' == ledger + (if env.credit == Seen && env.row.Took() && due then
                              [Row(company, CreditRefund, DirCredit, was.totalAmount - fee, Some(b), None)]
                            else [])
    && bookings' == (if env.save.Took() then
                       bookings[b := was.(status := Cancelled, cancellation :=
                         Some(Cancellation(fee, refund, if was.paymentMethod == Online then RefundPending else RefundProcessed)))]
                     else bookings)
  }

  lemma EffectOf(accounts: Accounts, bookings: seq<Booking>, ledger: seq<Row>,
                 accounts': Accounts, bookings': seq<Booking>, ledger': seq<Row>, b: nat, company: CompanyId, env: CancelEnv)
    requires b < |bookings| && env.answer.Returned?
    requires accounts' == AddOutstanding(accounts, company, if env.credit.Took() then -Refundable(bookings[b], env.answer.fee) else 0)
    requires ledger' == ledger + RowOfRefund(bookings[b], b, company, env.answer.fee, env)
    requires bookings' == if env.save.Took() then bookings[b := CancelledBooking(bookings[b], env.answer.fee, env.answer.refund)] else bookings
    ensures CarriedOut(accounts, bookings, ledger, accounts', bookings', ledger', b, company, env)
  {
    RefundableExactly(bookings[b], env.answer.fee);
    AddedExactly(accounts, company, if env.credit.Took() then -Refundable(bookings[b], env.answer.fee) else 0);
  }

  /** The row that records what a cancelled credit booking got back. */
  function RowFor(was: Booking, b: nat, company: CompanyId, fee: int): seq<Row> {
    [Row(company, CreditRefund, DirCredit, was.totalAmount - fee, Some(b), None)]
  }

  /** It is stored if there was something to give back, creditBack was acknowledged and the row's write took effect. */
  function RowOfRefund(was: Booking, b: nat, company: CompanyId, fee: int, env: CancelEnv): seq<Row> {
    if env.credit == Seen && env.row.Took() && was.paymentMethod == Credit && fee < was.totalAmount then RowFor(was, b, company, fee) else []
  }

  lemma Joined(w: World, first: seq<Step>, u: World, second: seq<Step>, v: World, k: nat) returns (trace: seq<Step>)
    requires Exec(w, first) == Some(u) && Exec(u, second) == Some(v) && OfCancel(first, k) && OfCancel(second, k)
    ensures Exec(w, trace) == Some(v) && OfCancel(trace, k) && trace == first + second
  {
    ExecConcat(w, first, u, second, v);
    trace := first + second;
  }

  /** The debit row of a new booking: an online booking has none. */
  function DebitOf(company: CompanyId, m: Method, total: int, id: nat): seq<Row> {
    if m == Credit then [Row(company, CreditUse, DirDebit, total, Some(id), None)] else []
  }

  /** One booking more, at the end, with a printed reference. */
  ghost predicate Stored(was: seq<Booking>, now: seq<Booking>, id: nat,
                         company: CompanyId, m: Method, total: int, outcome: Outcome, at: int)
  {
    exists n: RefNumber ::
      && now == was + [Booking(Print(n), company, m, outcome.status, total, outcome.supplierRef,
                               if outcome.refundDue then Some(Cancellation(0, total, RefundPending)) else None, at)]
      && id == |was|
  }

  class BookingsService {
    const store: Store

    constructor (store: Store)
      ensures this.store == store
    {
      this.store := store;
    }

    /** Steps 1 and 2: take the credit, call the supplier, and give the credit back if it did not confirm. */
    method Charge(company: CompanyId, total: int, env: CreateEnv) returns (failure: Option<Failure>, ghost trace: seq<Step>)
      modifies store, store.companies
      ensures Exec(old(store.View()), trace) == Some(store.View())
      ensures OneSaga(trace, StartBooking(company, Credit, total), old(|store.sagas|)) && |store.sagas| == old(|store.sagas|) + 1
      ensures store.bookings == old(store.bookings) && store.ledger == old(store.ledger)
      ensures failure.None? ==>
        && env.answer.Answered?
        && store.sagas[old(|store.sagas|)] == Saga(company, Credit, total, Booked(Outcome(Confirmed, env.answer.supplierRef, false)))
        && Some(store.companies.accounts) == Deduct(old(store.companies.accounts), company, total)
      ensures failure != Some(PrebookFailed) && failure != Some(TransactionFailed)
      ensures failure == Some(NoCredit) || failure == Some(NotConfirmed) || (failure == Some(SupplierError) && env.rollback.Took()) ==>
        store.companies.accounts == old(store.companies.accounts)
      ensures failure ==
        if env.deduct != Seen then Some(DatabaseError)
        else if Deduct(old(store.companies.accounts), company, total).None? then Some(NoCredit)
        else if env.answer.Threw? then Some(SupplierError)
        else if env.answer.confirmed then None
        else Some(if env.rollback == Seen then NotConfirmed else DatabaseError)
    {
      ghost var w := store.View();
      ghost var i := |store.sagas|;
      failure, trace := Begin(company, total, env.deduct);
      if failure.Some? {
        return;
      }
      ghost var mid, next := store.View(), [];
      BackAgain(old(store.companies.accounts), company, total);
      BackAgain(store.companies.accounts, company, total);
      failure, next := Supply(company, total, env, i);
      ExecConcat(w, trace, mid, next, store.View());
      trace := trace + next;
    }

    /** Step 1: take the credit. A deduct that took effect but threw leaves the credit stranded. */
    method Begin(company: CompanyId, total: int, deduct: Write) returns (failure: Option<Failure>, ghost trace: seq<Step>)
      modifies store, store.companies
      ensures Exec(old(store.View()), trace) == Some(store.View())
      ensures OneSaga(trace, StartBooking(company, Credit, total), old(|store.sagas|)) && |store.sagas| == old(|store.sagas|) + 1
      ensures store.bookings == old(store.bookings) && store.ledger == old(store.ledger)
      ensures failure == (if deduct != Seen then Some(DatabaseError)
                          else if Deduct(old(store.companies.accounts), company, total).None? then Some(NoCredit)
                          else None)
      ensures store.companies.accounts ==
        if deduct.Took() && Deduct(old(store.companies.accounts), company, total).Some?
        then Deduct(old(store.companies.accounts), company, total).value else old(store.companies.accounts)
      ensures failure.None? ==> store.sagas[old(|store.sagas|)] == Saga(company, Credit, total, Deducted)
    {
      ghost var w := store.View();
      ghost var i := |store.sagas|;
      store.Price(company, Credit, total);
      trace := [StartBooking(company, Credit, total)];
      ExecOne(w, StartBooking(company, Credit, total), store.View());
      if !deduct.Took() {
        return Some(DatabaseError), trace;
      }
      ghost var u := store.View();
      var taken := store.TakeCredit(company, total, deduct == Seen, i);
      ghost var act := if taken then DeductCredit(deduct == Seen) else RefuseCredit;
      ExecStep(w, trace, u, SagaStep(i, act), store.View());
      trace := trace + [SagaStep(i, act)];
      failure := if deduct != Seen then Some(DatabaseError) else if taken then None else Some(NoCredit);
    }

    /** The supplier call of step 2, with its compensation: a rollback that threw is only logged after an exception. */
    method Supply(company: CompanyId, total: int, env: CreateEnv, ghost i: nat) returns (failure: Option<Failure>, ghost trace: seq<Step>)
      requires i < |store.sagas| && store.sagas[i] == Saga(company, Credit, total, Deducted)
      modifies store, store.companies
      ensures Exec(old(store.View()), trace) == Some(store.View()) && OfSaga(trace, i) && |store.sagas| == old(|store.sagas|)
      ensures store.bookings == old(store.bookings) && store.ledger == old(store.ledger)
      ensures failure == (if env.answer.Threw? then Some(SupplierError)
                          else if env.answer.confirmed then None
                          else Some(if env.rollback == Seen then NotConfirmed else DatabaseError))
      ensures failure.None? ==>
        store.sagas[i] == Saga(company, Credit, total, Booked(Outcome(Confirmed, env.answer.supplierRef, false)))
      ensures store.companies.accounts ==
        AddOutstanding(old(store.companies.accounts), company, if failure.Some? && env.rollback.Took() then -total else 0)
    {
      ghost var w := store.View();
      assert AddOutstanding(store.companies.accounts, company, 0) == store.companies.accounts;
      store.HearSupplier(env.answer, i);
      ExecOne(w, SagaStep(i, SupplierBooks(env.answer)), store.View());
      trace := [SagaStep(i, SupplierBooks(env.answer))];
      if env.answer.Answered? && env.answer.confirmed {
        return None, trace;
      }
      var gone := env.rollback.Took();
      ghost var u := store.View();
      store.RollBack(company, total, gone, i);
      ExecStep(w, trace, u, SagaStep(i, GiveBack(gone)), store.View());
      trace := trace + [SagaStep(i, GiveBack(gone))];
      failure := Some(if env.answer.Threw? then SupplierError else if env.rollback == Seen then NotConfirmed else DatabaseError);
    }

    /**
      The transaction, retried; each attempt draws a reference of its own. A commit that took effect
      but threw stores the booking all the same; its caller does not learn the booking's id.
    */
    method Transact(company: CompanyId, m: Method, total: int, outcome: Outcome, years: seq<nat>, commit: Write, now: int, ghost i: nat)
      returns (id: Option<nat>, ghost trace: seq<Step>)
      requires i < |store.sagas| && store.sagas[i] == Saga(company, m, total, Booked(outcome))
      modifies store
      ensures Exec(old(store.View()), trace) == Some(store.View()) && OfSaga(trace, i)
      ensures id == if years != [] && commit == Seen then Some(old(|store.bookings|)) else None
      ensures years == [] || !commit.Took() ==> store.bookings == old(store.bookings) && store.ledger == old(store.ledger)
      ensures years != [] && commit.Took() ==>
        && Stored(old(store.bookings), store.bookings, old(|store.bookings|), company, m, total, outcome, now)
        && store.ledger == old(store.ledger) + DebitOf(company, m, total, old(|store.bookings|))
    {
      ghost var w := store.View();
      var bookingRef;
      bookingRef, trace := DrawReferences(company, m, total, outcome, years, i);
      ghost var mid, last := store.View(), [];
      if years == [] || !commit.Took() {
        store.GiveUp(i);
        last := [SagaStep(i, Abort)];
        ExecOne(mid, SagaStep(i, Abort), store.View());
        id := None;
      } else {
        var stored := store.Persist(bookingRef, company, m, total, outcome, now, i);
        last := [SagaStep(i, Commit(now))];
        ExecOne(mid, SagaStep(i, Commit(now)), store.View());
        id := if commit == Seen then Some(stored) else None;
      }
      ExecConcat(w, trace, mid, last, store.View());
      trace := trace + last;
    }

    /** The attempts of the transaction: each draws a reference, and the last one's is kept. */
    method DrawReferences(company: CompanyId, m: Method, total: int, outcome: Outcome, years: seq<nat>, ghost i: nat)
      returns (bookingRef: string, ghost trace: seq<Step>)
      requires i < |store.sagas| && store.sagas[i] == Saga(company, m, total, Booked(outcome))
      modifies store
      ensures Exec(old(store.View()), trace) == Some(store.View()) && OfSaga(trace, i) && i < |store.sagas|
      ensures store.bookings == old(store.bookings) && store.ledger == old(store.ledger)
      ensures years == [] ==> store.sagas[i] == Saga(company, m, total, Booked(outcome))
      ensures years != [] ==> store.sagas[i].pc.Persisting? && bookingRef == Print(store.sagas[i].pc.number)
      ensures years != [] ==> store.sagas[i] == Saga(company, m, total, Persisting(outcome, store.sagas[i].pc.number))
    {
      ghost var w := store.View();
      trace := [];
      bookingRef := "";
      var attempt := 0;
      while attempt < |years|
        invariant attempt <= |years| && i < |store.sagas|
        invariant Exec(w, trace) == Some(store.View()) && OfSaga(trace, i)
        invariant store.bookings == old(store.bookings) && store.ledger == old(store.ledger)
        invariant attempt == 0 ==> store.sagas[i] == Saga(company, m, total, Booked(outcome))
        invariant attempt > 0 ==> store.sagas[i].pc.Persisting? && bookingRef == Print(store.sagas[i].pc.number)
        invariant attempt > 0 ==> store.sagas[i] == Saga(company, m, total, Persisting(outcome, store.sagas[i].pc.number))
      {
        ghost var step := SagaStep(i, IssueRef(years[attempt]));
        ghost var u := store.View();
        bookingRef := store.GenerateBookingRef(years[attempt], i);
        ExecStep(w, trace, u, step, store.View());
        trace := trace + [step];
        attempt := attempt + 1;
      }
    }

    /**
      The paymentMethod === 'credit' branch of createBooking. `quoted` is the total that prebook and
      the markup fix, None if prebook threw. A run of one saga. Once the supplier confirmed, the debt
      grew by the total; the booking and its debit are stored, both or neither, and the request
      succeeds, starting a loyalty award, if it saw them stored. On a refusal, or a supplier failure
      whose rollback took effect, no balance changed.
    */
    method CreateCreditBooking(company: CompanyId, quoted: Option<int>, env: CreateEnv)
      returns (r: Reply<nat>, award: Option<Award>, ghost trace: seq<Step>)
      modifies store, store.companies
      ensures Exec(old(store.View()), trace) == Some(store.View())
      ensures if quoted.Some? then OneSaga(trace, StartBooking(company, Credit, quoted.value), old(|store.sagas|))
              else r == Rejected(PrebookFailed) && trace == []
      ensures r.Success? || r == Rejected(TransactionFailed) ==>
        && quoted.Some? && env.answer.Answered?
        && Some(store.companies.accounts) == Deduct(old(store.companies.accounts), company, quoted.value)
        && (r.Success? <==> env.Keeps() && env.commit == Seen)
        && (env.Keeps() ==>
              && Stored(old(store.bookings), store.bookings, old(|store.bookings|), company, Credit, quoted.value,
                        Outcome(Confirmed, env.answer.supplierRef, false), env.now)
              && store.ledger == old(store.ledger) + DebitOf(company, Credit, quoted.value, old(|store.bookings|)))
        && (!env.Keeps() ==> store.bookings == old(store.bookings) && store.ledger == old(store.ledger))
      ensures r.Success? ==> r.value == old(|store.bookings|)
      ensures award == if r.Success? then Some(Award(company, quoted.value, r.value)) else None
      ensures r.Rejected? && r.why != TransactionFailed ==> store.bookings == old(store.bookings) && store.ledger == old(store.ledger)
      ensures r == Rejected(NoCredit) || r == Rejected(NotConfirmed) || (r == Rejected(SupplierError) && env.rollback.Took()) ==>
        store.companies.accounts == old(store.companies.accounts)
      ensures quoted.Some? && env.deduct == Seen ==>
        (r == Rejected(NoCredit) <==>
         !(&& quoted.value > 0 && company in old(store.companies.accounts)
           && quoted.value <= old(store.companies.accounts)[company].creditLimit + old(store.companies.accounts)[company].walletBalance
                              - old(store.companies.accounts)[company].outstandingBalance))
      ensures quoted.Some? && env.deduct == Seen && r != Rejected(NoCredit) ==>
        && (r == Rejected(SupplierError) <==> env.answer.Threw?)
        && (r.Success? || r == Rejected(TransactionFailed) <==> env.answer.Answered? && env.answer.confirmed)
        && (r == Rejected(NotConfirmed) <==> env.answer.Answered? && !env.answer.confirmed && env.rollback == Seen)
      ensures r.Success? || r == Rejected(TransactionFailed) ==>
        DebtMoved(old(store.companies.accounts), store.companies.accounts, company, quoted.value)
    {
      award, trace := None, [];
      if quoted.None? {
        return Rejected(PrebookFailed), award, trace;
      }
      var total := quoted.value;
      DeductExactly(store.companies.accounts, company, total);
      ghost var i := |store.sagas|;
      var failure;
      failure, trace := Charge(company, total, env);
      if failure.Some? {
        return Rejected(failure.value), award, trace;
      }
      var id;
      ghost var mid, next := store.View(), [];
      id, next := Transact(company, Credit, total, Outcome(Confirmed, env.answer.supplierRef, false),
                           env.years, env.commit, env.now, i);
      ExecConcat(old(store.View()), trace, mid, next, store.View());
      trace := trace + next;
      if id.Some? {
        award := Some(Award(company, total, id.value));
      }
      r := if id.Some? then Success(id.value) else Rejected(TransactionFailed);
    }

    /**
      The paymentMethod === 'online' branch. No balance moves. When the supplier's call throws, a
      failed booking is stored with the whole amount to be refunded; an answer that does not
      confirm is stored as a failed booking without any refund. Only a confirmed one earns points.
      A booking whose write took effect but threw is stored although the request fails.
    */
    method CreateOnlineBooking(company: CompanyId, paymentGiven: bool, quoted: Option<int>, env: CreateEnv)
      returns (r: Reply<nat>, award: Option<Award>, ghost trace: seq<Step>)
      modifies store
      ensures Exec(old(store.View()), trace) == Some(store.View())
      ensures if paymentGiven && quoted.Some? then OneSaga(trace, StartBooking(company, Online, quoted.value), old(|store.sagas|))
              else r == Rejected(if paymentGiven then PrebookFailed else InvalidRequest) && trace == []
      ensures store.companies.accounts == old(store.companies.accounts) && store.ledger == old(store.ledger)
      ensures paymentGiven && quoted.Some? ==>
        if env.Keeps() then Stored(old(store.bookings), store.bookings, old(|store.bookings|), company, Online, quoted.value,
                                   OnlineOutcome(env.answer), env.now)
        else store.bookings == old(store.bookings)
      ensures paymentGiven && quoted.Some? && env.Keeps() ==>
        var b := store.bookings[old(|store.bookings|)];
        && b.status == (if env.answer.Answered? && env.answer.confirmed then Confirmed else Failed)
        && b.supplierRef == (if env.answer.Answered? then env.answer.supplierRef else None)
        && b.cancellation == (if env.answer.Threw? then Some(Cancellation(0, quoted.value, RefundPending)) else None)
      ensures paymentGiven && quoted.Some? ==>
        && (r.Success? <==> env.Keeps() && env.commit == Seen && env.answer.Answered?)
        && (r.Success? ==> r.value == old(|store.bookings|))
        && (r == Rejected(SupplierError) <==> env.Keeps() && env.commit == Seen && env.answer.Threw?)
        && (r.Rejected? && r.why != SupplierError ==> r.why == if env.answer.Threw? then DatabaseError else TransactionFailed)
      ensures !(paymentGiven && quoted.Some?) ==> store.bookings == old(store.bookings)
      ensures award ==
        if r.Success? && env.answer.confirmed then Some(Award(company, quoted.value, r.value)) else None
    {
      award, trace := None, [];
      if !paymentGiven {
        return Rejected(InvalidRequest), award, trace;
      }
      if quoted.None? {
        return Rejected(PrebookFailed), award, trace;
      }
      var total := quoted.value;
      ghost var w := store.View();
      ghost var i := |store.sagas|;
      trace := BeginOnline(company, total, env.answer);
      // the failed record is written once, outside any transaction
      var years := if env.answer.Threw? && env.years != [] then env.years[..1] else env.years;
      var id;
      ghost var mid, next := store.View(), [];
      id, next := Transact(company, Online, total, OnlineOutcome(env.answer), years, env.commit, env.now, i);
      ExecConcat(w, trace, mid, next, store.View());
      trace := trace + next;
      if id.Some? && env.answer.Answered? && env.answer.confirmed {
        award := Some(Award(company, total, id.value));
      }
      r := if id == None then Rejected(if env.answer.Threw? then DatabaseError else TransactionFailed)
           else if env.answer.Threw? then Rejected(SupplierError) else Success(id.value);
    }

    /** The supplier call of the online branch: nothing is stored yet. */
    ghost method BeginOnline(company: CompanyId, total: int, answer: BookAnswer) returns (trace: seq<Step>)
      modifies store
      ensures Exec(old(store.View()), trace) == Some(store.View())
      ensures OneSaga(trace, StartBooking(company, Online, total), old(|store.sagas|)) && |store.sagas| == old(|store.sagas|) + 1
      ensures store.sagas[old(|store.sagas|)] == Saga(company, Online, total, Booked(OnlineOutcome(answer)))
      ensures store.bookings == old(store.bookings) && store.ledger == old(store.ledger)
    {
      var w := store.View();
      var i := |store.sagas|;
      store.Price(company, Online, total);
      ExecOne(w, StartBooking(company, Online, total), store.View());
      trace := [StartBooking(company, Online, total)];
      var u := store.View();
      store.HearSupplier(answer, i);
      ExecStep(w, trace, u, SagaStep(i, SupplierBooks(answer)), store.View());
      trace := trace + [SagaStep(i, SupplierBooks(answer))];
    }

    /** The ledger row of a cancellation, if it is due. */
    method Log(b: nat, company: CompanyId, fee: int, refund: int, rowDue: bool, row: Write, ghost k: nat) returns (ghost trace: seq<Step>)
      requires k < |store.cancels| && store.cancels[k].booking == b < |store.bookings| && store.cancels[k].company == company
      requires store.cancels[k].pc == if rowDue then RowDue(fee, refund) else SaveDue(fee, refund)
      requires rowDue ==> store.cancels[k].credited == store.bookings[b].totalAmount - fee
      modifies store
      ensures Exec(old(store.View()), trace) == Some(store.View()) && OfCancel(trace, k)
      ensures store.bookings == old(store.bookings) && k < |store.cancels|
      ensures store.cancels[k].booking == b && store.cancels[k].pc == SaveDue(fee, refund)
      ensures store.ledger == old(store.ledger) + if rowDue && row.Took() then RowFor(store.bookings[b], b, company, fee) else []
    {
      ghost var w := store.View();
      assert store.ledger + [] == store.ledger;
      trace := [];
      if rowDue {
        store.WriteRefundRow(b, company, store.bookings[b].totalAmount - fee, row.Took(), k);
        trace := [CancelStep(k, LogCancel(row.Took()))];
        ExecOne(w, CancelStep(k, LogCancel(row.Took())), store.View());
      }
    }

    /** The end of cancelBooking: the ledger row if it is due, then the booking. */
    method Record(b: nat, company: CompanyId, fee: int, refund: int, rowDue: bool, env: CancelEnv, ghost k: nat) returns (ghost trace: seq<Step>)
      requires k < |store.cancels| && store.cancels[k].booking == b < |store.bookings| && store.cancels[k].company == company
      requires store.cancels[k].pc == if rowDue then RowDue(fee, refund) else SaveDue(fee, refund)
      requires rowDue <==> env.credit == Seen && store.bookings[b].paymentMethod == Credit && fee < store.bookings[b].totalAmount
      requires rowDue ==> store.cancels[k].credited == store.bookings[b].totalAmount - fee
      modifies store
      ensures Exec(old(store.View()), trace) == Some(store.View())
      ensures OfCancel(trace, k)
      ensures store.bookings ==
        if env.save.Took() then old(store.bookings)[b := CancelledBooking(old(store.bookings)[b], fee, refund)]
        else old(store.bookings)
      ensures store.ledger == old(store.ledger) + RowOfRefund(old(store.bookings)[b], b, company, fee, env)
    {
      ghost var w := store.View();
      trace := Log(b, company, fee, refund, rowDue, env.row, k);
      ghost var u := store.View();
      store.SaveBooking(b, fee, refund, env.save.Took(), k);
      ExecStep(w, trace, u, CancelStep(k, SaveCancel(env.save.Took())), store.View());
      trace := trace + [CancelStep(k, SaveCancel(env.save.Took()))];
    }

    /** creditBack of the refundable part, as a run of one step. */
    method GiveCredit(b: nat, company: CompanyId, fee: int, refund: int, credit: Write, ghost k: nat) returns (rowDue: bool, ghost trace: seq<Step>)
      requires k < |store.cancels| && store.cancels[k].booking == b < |store.bookings| && store.cancels[k].company == company
      requires store.cancels[k].pc == Accepted(fee, refund)
      modifies store, store.companies
      ensures Exec(old(store.View()), trace) == Some(store.View()) && OfCancel(trace, k)
      ensures store.bookings == old(store.bookings) && store.ledger == old(store.ledger) && k < |store.cancels|
      ensures store.companies.accounts ==
        AddOutstanding(old(store.companies.accounts), company, if credit.Took() then -Refundable(store.bookings[b], fee) else 0)
      ensures rowDue <==> credit == Seen && store.bookings[b].paymentMethod == Credit && fee < store.bookings[b].totalAmount
      ensures store.cancels[k].booking == b && store.cancels[k].company == company
      ensures store.cancels[k].pc == if rowDue then RowDue(fee, refund) else SaveDue(fee, refund)
      ensures rowDue ==> store.cancels[k].credited == store.bookings[b].totalAmount - fee
    {
      ghost var w := store.View();
      ghost var step := CancelStep(k, CreditCancel(credit.Took(), credit == Seen));
      rowDue := store.ReturnCredit(b, company, fee, credit.Took(), credit == Seen, k);
      trace := [step];
      ExecOne(w, step, store.View());
    }

    /** cancelBooking after the supplier's call returned: credit back, ledger row, save. */
    method Refund(b: nat, company: CompanyId, fee: int, refund: int, env: CancelEnv, ghost k: nat) returns (ghost trace: seq<Step>)
      requires k < |store.cancels| && store.cancels[k].booking == b < |store.bookings| && store.cancels[k].company == company
      requires store.cancels[k].pc == Accepted(fee, refund)
      modifies store, store.companies
      ensures Exec(old(store.View()), trace) == Some(store.View())
      ensures OfCancel(trace, k)
      ensures store.companies.accounts ==
        AddOutstanding(old(store.companies.accounts), company, if env.credit.Took() then -Refundable(old(store.bookings)[b], fee) else 0)
      ensures store.bookings ==
        if env.save.Took() then old(store.bookings)[b := CancelledBooking(old(store.bookings)[b], fee, refund)]
        else old(store.bookings)
      ensures store.ledger == old(store.ledger) + RowOfRefund(old(store.bookings)[b], b, company, fee, env)
    {
      ghost var w := store.View();
      var rowDue;
      rowDue, trace := GiveCredit(b, company, fee, refund, env.credit, k);
      ghost var mid := store.View();
      ghost var next := Record(b, company, fee, refund, rowDue, env, k);
      trace := Joined(w, trace, mid, next, store.View(), k);
    }

    /** The checks, in order; nothing is written. */
    method Refusal(b: nat, company: CompanyId) returns (why: Option<Failure>)
      ensures why == None <==> Cancellable(store.View(), b, company)
      ensures why == Some(BookingNotFound) <==> b >= |store.bookings| || store.bookings[b].company != company
      ensures b < |store.bookings| && store.bookings[b].company == company ==>
        var open := store.bookings[b].status == Confirmed || store.bookings[b].status == Pending;
        && (why == Some(WrongStatus) <==> !open)
        && (why == Some(NoSupplierReference) <==> open && store.bookings[b].supplierRef == None)
        && (why == None <==> open && store.bookings[b].supplierRef != None)
    {
      if b >= |store.bookings| || store.bookings[b].company != company {
        return Some(BookingNotFound);
      }
      if store.bookings[b].status != Confirmed && store.bookings[b].status != Pending {
        return Some(WrongStatus);
      }
      if store.bookings[b].supplierRef == None {
        return Some(NoSupplierReference);
      }
      return None;
    }

    /** The supplier is asked; nothing is written whatever it answers. */
    method CallSupplier(b: nat, company: CompanyId, answer: CancelAnswer) returns (ghost trace: seq<Step>)
      requires Cancellable(store.View(), b, company)
      modifies store
      ensures Exec(old(store.View()), trace) == Some(store.View())
      ensures trace != [] && trace[0] == StartCancel(b, company) && OfCancel(trace[1..], old(|store.cancels|))
      ensures store.bookings == old(store.bookings) && store.ledger == old(store.ledger)
      ensures var k := old(|store.cancels|);
        && |store.cancels| == k + 1
        && store.cancels[k].booking == b && store.cancels[k].company == company
        && (answer.Returned? ==> store.cancels[k].pc == Accepted(answer.fee, answer.refund))
    {
      ghost var k := |store.cancels|;
      ghost var w := store.View();
      store.Ask(b, company);
      ExecOne(w, StartCancel(b, company), store.View());
      trace := [StartCancel(b, company)];
      ghost var u := store.View();
      store.HearCancel(answer, k);
      ExecStep(w, trace, u, CancelStep(k, SupplierCancels(answer)), store.View());
      trace := trace + [CancelStep(k, SupplierCancels(answer))];
    }

    /** cancelBooking: refused before anything moves, stopped by the supplier, or carried out. */
    method CancelBooking(b: nat, company: CompanyId, env: CancelEnv) returns (r: Reply<()>, ghost trace: seq<Step>)
      modifies store, store.companies
      ensures Exec(old(store.View()), trace) == Some(store.View())
      ensures !Cancellable(old(store.View()), b, company) ==> r.Rejected? && trace == []
      ensures Cancellable(old(store.View()), b, company) ==>
        && trace != [] && trace[0] == StartCancel(b, company) && OfCancel(trace[1..], old(|store.cancels|))
        && (r.Success? <==> env.answer.Returned? && env.save == Seen)
      ensures Cancellable(old(store.View()), b, company) && env.answer.CallFailed? ==>
        && r == Rejected(SupplierError) && store.companies.accounts == old(store.companies.accounts)
        && store.bookings == old(store.bookings) && store.ledger == old(store.ledger)
      ensures Cancellable(old(store.View()), b, company) && env.answer.Returned? ==>
        && store.bookings ==
             (if env.save.Took() then
                old(store.bookings)[b := CancelledBooking(old(store.bookings)[b], env.answer.fee, env.answer.refund)]
              else old(store.bookings))
        && store.companies.accounts == AddOutstanding(old(store.companies.accounts), company,
             if env.credit.Took() then -Refundable(old(store.bookings)[b], env.answer.fee) else 0)
      ensures Cancellable(old(store.View()), b, company) && env.answer.Returned? ==>
        CarriedOut(old(store.companies.accounts), old(store.bookings), old(store.ledger),
                   store.companies.accounts, store.bookings, store.ledger, b, company, env)
    {
      trace := [];
      ghost var w := store.View();
      ghost var k := |store.cancels|;
      var refusal := Refusal(b, company);
      if refusal.Some? {
        return Rejected(refusal.value), trace;
      }
      trace := CallSupplier(b, company, env.answer);
      if env.answer.CallFailed? {
        return Rejected(SupplierError), trace;
      }
      ghost var mid, next := store.View(), [];
      next := Refund(b, company, env.answer.fee, env.answer.refund, env, k);
      EffectOf(w.accounts, w.bookings, w.ledger, store.companies.accounts, store.bookings, store.ledger, b, company, env);
      ExecConcat(w, trace, mid, next, store.View());
      trace := trace + next;
      r := if env.save == Seen then Success(()) else Rejected(DatabaseError);
    }
  }

  /** AdminService and WalletService, as far as they touch the stored collections. `save` and `row`: how the save and the ledger row went. */
  class OfficeService {
    const store: Store

    constructor (store: Store)
      ensures this.store == store
    {
      this.store := store;
    }

    /** A row is appended if its write took effect. */
    method WriteRow(r: Row, row: Write)
      modifies store
      ensures store.View() == old(store.View()).(ledger := old(store.ledger) + if row.Took() then [r] else [])
    {
      assert store.ledger + [] == store.ledger;
      if row.Took() {
        store.ledger := store.ledger + [r];
      }
    }

    /**
      `read` is what findById returned; the limit is assigned and saved, then the adjustment is
      logged with the values read. An unchanged limit is not written.
    */
    method UpdateCreditLimit(id: CompanyId, read: Option<Company>, limit: int, save: Write, row: Write) returns (r: Reply<()>)
      requires limit >= 0 && (read.Some? ==> id in store.companies.accounts)
      modifies store, store.companies
      ensures r == if read.None? then Rejected(CompanyNotFound) else if save == Seen && row == Seen then Success(()) else Rejected(DatabaseError)
      ensures store.View() ==
        if read.None? || !save.Took() then old(store.View())
        else ApplyOffice(old(store.View()),
                         UpdateLimit(id, limit, read.value.creditLimit, read.value.walletBalance, save == Seen && row.Took()))
      ensures store.bookings == old(store.bookings)
      ensures store.companies.accounts ==
        if read.Some? && save.Took() && limit != read.value.creditLimit then
          old(store.companies.accounts)[id := old(store.companies.accounts)[id].(creditLimit := limit)]
        else old(store.companies.accounts)
      ensures read.None? || save != Seen || !row.Took() ==> store.ledger == old(store.ledger)
      ensures read.Some? && save == Seen && row.Took() ==>
        && |store.ledger| == |old(store.ledger)| + 1 && store.ledger[..|old(store.ledger)|] == old(store.ledger)
        && var r := store.ledger[|old(store.ledger)|];
           && r.company == id && r.kind == Adjustment && r.refBooking == None && r.amount >= 0
           && (r.direction == DirCredit <==> limit >= read.value.creditLimit)
           && limit - read.value.creditLimit == (if r.direction == DirCredit then r.amount else -r.amount)
           && r.balanceAfter == Some(limit + read.value.walletBalance)
    {
      if read.None? {
        return Rejected(CompanyNotFound);
      }
      var oldLimit := read.value.creditLimit;
      if save.Took() && limit != oldLimit {
        var accounts := store.companies.accounts;
        store.companies.accounts := accounts[id := accounts[id].(creditLimit := limit)];
      }
      assert store.ledger + [] == store.ledger;
      if save != Seen {
        return Rejected(DatabaseError);
      }
      WriteRow(Row(id, Adjustment, if limit >= oldLimit then DirCredit else DirDebit, Abs(limit - oldLimit),
                   None, Some(limit + read.value.walletBalance)), row);
      r := if row == Seen then Success(()) else Rejected(DatabaseError);
    }

    /** `read` is what findById returned; the save overwrites whatever wallet is stored now. */
    method AdminTopUpWallet(id: CompanyId, read: Option<Company>, amount: int, save: Write, row: Write) returns (r: Reply<int>)
      requires amount >= 1 && (read.Some? ==> id in store.companies.accounts)
      modifies store, store.companies
      ensures r == if read.None? then Rejected(CompanyNotFound)
                   else if save == Seen && row == Seen then Success(read.value.walletBalance + amount)
                   else Rejected(DatabaseError)
      ensures store.View() ==
        if read.None? || !save.Took() then old(store.View())
        else ApplyOffice(old(store.View()), AdminTopUp(id, read.value.walletBalance, amount, save == Seen && row.Took()))
      ensures store.bookings == old(store.bookings)
      ensures store.companies.accounts ==
        if read.Some? && save.Took() then
          old(store.companies.accounts)[id := old(store.companies.accounts)[id].(walletBalance := read.value.walletBalance + amount)]
        else old(store.companies.accounts)
      ensures store.ledger == old(store.ledger) +
        if read.Some? && save == Seen && row.Took() then
          [Row(id, TopUp, DirCredit, amount, None, Some(read.value.walletBalance + amount))]
        else []
    {
      if read.None? {
        return Rejected(CompanyNotFound);
      }
      var balance := read.value.walletBalance + amount;
      if save.Took() {
        var accounts := store.companies.accounts;
        store.companies.accounts := accounts[id := accounts[id].(walletBalance := balance)];
      }
      assert store.ledger + [] == store.ledger;
      if save != Seen {
        return Rejected(DatabaseError);
      }
      WriteRow(Row(id, TopUp, DirCredit, amount, None, Some(balance)), row);
      r := if row == Seen then Success(balance) else Rejected(DatabaseError);
    }

    method UpdateBookingStatus(b: nat, status: Status, save: Write) returns (r: Reply<()>)
      modifies store
      ensures r == if save != Seen then Rejected(DatabaseError) else if b < old(|store.bookings|) then Success(()) else Rejected(BookingNotFound)
      ensures store.View() ==
        if b < old(|store.bookings|) && save.Took() then ApplyOffice(old(store.View()), OverrideStatus(b, status)) else old(store.View())
      ensures store.bookings ==
        if b < old(|store.bookings|) && save.Took() then old(store.bookings)[b := old(store.bookings)[b].(status := status)]
        else old(store.bookings)
      ensures store.ledger == old(store.ledger)
    {
      assert store.ledger + [] == store.ledger;
      if b < |store.bookings| && save.Took() {
        store.bookings := store.bookings[b := store.bookings[b].(status := status)];
      }
      r := if save != Seen then Rejected(DatabaseError) else if b < |store.bookings| then Success(()) else Rejected(BookingNotFound);
    }

    /**
      The refund is marked on the booking, if it was cancelled, and then added to the wallet, not taken
      off the debt. `mark` is the save of the booking, `read` the wallet as findById returned it.
    */
    method RefundBooking(b: nat, read: int, amount: int, mark: Write, save: Write, row: Write) returns (r: Reply<()>)
      requires amount >= 0
      modifies store, store.companies
      ensures r == Rejected(BookingNotFound) <==> b >= old(|store.bookings|)
      ensures store.View() ==
        if b >= old(|store.bookings|) || !mark.Took() then old(store.View())
        else ApplyOffice(old(store.View()),
                         AdminRefund(b, read, amount, mark == Seen && save.Took(), save == Seen && row.Took()))
      ensures b < old(|store.bookings|) ==>
        var was, known := old(store.bookings)[b], old(store.bookings)[b].company in old(store.companies.accounts);
        && store.bookings == (if mark.Took() && was.cancellation.Some? then
             old(store.bookings)[b := was.(cancellation := Some(Cancellation(was.cancellation.value.fee, amount, RefundProcessed)))]
             else old(store.bookings))
        && store.companies.accounts == (if mark == Seen && save.Took() && amount > 0 && known then
             old(store.companies.accounts)[was.company := old(store.companies.accounts)[was.company].(walletBalance := read + amount)]
             else old(store.companies.accounts))
        && store.ledger == old(store.ledger) + (if mark == Seen && save == Seen && row.Took() && amount > 0 && known then
             [Row(was.company, CreditRefund, DirCredit, amount, Some(b), Some(read + amount))]
             else [])
      ensures b < old(|store.bookings|) ==>
        (r.Success? <==> mark == Seen && (amount == 0 || old(store.bookings)[b].company !in store.companies.accounts
                                          || (save == Seen && row == Seen)))
    {
      if b >= |store.bookings| {
        return Rejected(BookingNotFound);
      }
      var booking := store.bookings[b];
      assert store.ledger + [] == store.ledger;
      if mark.Took() && booking.cancellation.Some? {
        var marked := booking.cancellation.value.(refund := amount, refundStatus := RefundProcessed);
        store.bookings := store.bookings[b := booking.(cancellation := Some(marked))];
      }
      if mark != Seen {
        return Rejected(DatabaseError);
      }
      if amount == 0 || booking.company !in store.companies.accounts {
        return Success(());
      }
      if save.Took() {
        var accounts := store.companies.accounts;
        store.companies.accounts := accounts[booking.company := accounts[booking.company].(walletBalance := read + amount)];
      }
      if save != Seen {
        return Rejected(DatabaseError);
      }
      WriteRow(Row(booking.company, CreditRefund, DirCredit, amount, Some(b), Some(read + amount)), row);
      r := if row == Seen then Success(()) else Rejected(DatabaseError);
    }

    /** A settlement is recorded, then its row; no balance changes. `save` is the settlement's own write. */
    method RecordSettlementOf(id: CompanyId, read: Option<Company>, amount: int, save: Write, row: Write) returns (r: Reply<()>)
      requires amount >= 1 && (read.Some? ==> id in store.companies.accounts)
      modifies store
      ensures r == if read.None? then Rejected(CompanyNotFound) else if save == Seen && row == Seen then Success(()) else Rejected(DatabaseError)
      ensures store.View() ==
        if read.None? || save != Seen || !row.Took() then old(store.View())
        else ApplyOffice(old(store.View()), RecordSettlement(id, read.value.walletBalance, amount))
      ensures store.bookings == old(store.bookings)
      ensures store.ledger == old(store.ledger) +
        if read.Some? && save == Seen && row.Took() then
          [Row(id, Settlement, DirCredit, amount, None, Some(read.value.walletBalance))]
        else []
    {
      if read.None? {
        return Rejected(CompanyNotFound);
      }
      assert store.ledger + [] == store.ledger;
      if save != Seen {
        return Rejected(DatabaseError);
      }
      WriteRow(Row(id, Settlement, DirCredit, amount, None, Some(read.value.walletBalance)), row);
      r := if row == Seen then Success(()) else Rejected(DatabaseError);
    }

    /** The loyalty award that a successful booking starts and does not wait for: one update, then its row; failures are only logged. */
    method AddLoyaltyPoints(award: Award, points: int, value: int, update: Write, row: Write)
      requires award.company in store.companies.accounts && award.booking < |store.bookings| && points > 0
      modifies store, store.companies
      ensures store.View() ==
        if !update.Took() then old(store.View())
        else ApplyOffice(old(store.View()), EarnPoints(award.company, award.booking, points, value, update == Seen && row.Took()))
      ensures store.bookings == old(store.bookings)
      ensures var was := old(store.companies.accounts)[award.company];
        && store.companies.accounts == (if update.Took() then
             old(store.companies.accounts)[award.company := was.(loyaltyPoints := was.loyaltyPoints + points)]
             else old(store.companies.accounts))
        && store.ledger == old(store.ledger) + (if update == Seen && row.Took() then
             [Row(award.company, LoyaltyEarn, DirCredit, value, Some(award.booking), Some(was.walletBalance))]
             else [])
    {
      var accounts := store.companies.accounts;
      var c := accounts[award.company];
      assert store.ledger + [] == store.ledger;
      if update.Took() {
        store.companies.accounts := accounts[award.company := c.(loyaltyPoints := c.loyaltyPoints + points)];
      }
      if update == Seen {
        WriteRow(Row(award.company, LoyaltyEarn, DirCredit, value, Some(award.booking), Some(c.walletBalance)), row);
      }
    }
  }
}
