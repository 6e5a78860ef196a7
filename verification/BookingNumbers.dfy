/** Booking references are unique, and each credit booking has its one debit row. */
module BookingNumbers {
  import opened Wrappers
  import opened Companies
  import opened BookingRefs
  import opened Protocol
  import opened Conservation

  // ── References ───────────────────────────────────────────────────────────────

  /** A number the counter of its year has already passed. */
  predicate Drawn(w: World, r: RefNumber) {
    r.year in w.counters && 1 <= r.seqNo <= w.counters[r.year]
  }

  /** Numbers are drawn once each, and everything that carries a reference got it from the counter. */
  predicate NumbersOk(w: World) {
    && (forall i :: 0 <= i < |w.issued| ==> Drawn(w, w.issued[i]))
    && (forall i, j :: 0 <= i < j < |w.issued| ==> w.issued[i] != w.issued[j])
    && (forall i :: 0 <= i < |w.sagas| && w.sagas[i].pc.Persisting? ==> Drawn(w, w.sagas[i].pc.number))
    && (forall i, j :: 0 <= i < j < |w.sagas| && w.sagas[i].pc.Persisting? && w.sagas[j].pc.Persisting? ==>
          w.sagas[i].pc.number != w.sagas[j].pc.number)
  }

  /** Each booking's reference prints a drawn number, its own and no request's in flight. */
  ghost predicate BookingRefsOk(w: World, numbers: seq<RefNumber>) {
    && |numbers| == |w.bookings|
    && (forall b :: 0 <= b < |numbers| ==> w.bookings[b].bookingRef == Print(numbers[b]) && Drawn(w, numbers[b]))
    && (forall a, b :: 0 <= a < b < |numbers| ==> numbers[a] != numbers[b])
    && (forall b, i :: 0 <= b < |numbers| && 0 <= i < |w.sagas| && w.sagas[i].pc.Persisting? ==>
          w.sagas[i].pc.number != numbers[b])
  }

  lemma OtherStepsKeepRefs(w: World, step: Step)
    requires Enabled(w, step) && !(step.SagaStep? && (step.sagaAct.Commit? || step.sagaAct.IssueRef?))
    ensures var v := Apply(w, step);
      && v.counters == w.counters && v.issued == w.issued && |v.bookings| == |w.bookings|
      && (forall b :: 0 <= b < |w.bookings| ==> v.bookings[b].bookingRef == w.bookings[b].bookingRef)
      && |v.sagas| >= |w.sagas|
      && (forall i :: 0 <= i < |v.sagas| && v.sagas[i].pc.Persisting? ==> i < |w.sagas| && v.sagas[i] == w.sagas[i])
  {
  }

  lemma CommitNumbers(w: World, i: nat, now: int, numbers: seq<RefNumber>)
    requires NumbersOk(w) && BookingRefsOk(w, numbers) && i < |w.sagas| && SagaEnabled(w, i, Commit(now))
    ensures var v := ApplySaga(w, i, Commit(now));
      NumbersOk(v) && BookingRefsOk(v, numbers + [w.sagas[i].pc.number])
  {
  }

  lemma IssueNumbers(w: World, i: nat, year: nat, numbers: seq<RefNumber>)
    requires NumbersOk(w) && BookingRefsOk(w, numbers) && i < |w.sagas| && SagaEnabled(w, i, IssueRef(year))
    ensures var v := ApplySaga(w, i, IssueRef(year));
      NumbersOk(v) && BookingRefsOk(v, numbers)
  {
    assert !Drawn(w, NextNumber(w.counters, year));
  }

  lemma NumbersStep(w: World, step: Step, numbers: seq<RefNumber>) returns (next: seq<RefNumber>)
    requires NumbersOk(w) && BookingRefsOk(w, numbers) && Enabled(w, step)
    ensures NumbersOk(Apply(w, step)) && BookingRefsOk(Apply(w, step), next)
  {
    next := numbers;
    if step.SagaStep? && step.sagaAct.Commit? {
      CommitNumbers(w, step.saga, step.sagaAct.now, numbers);
      next := numbers + [w.sagas[step.saga].pc.number];
    } else if step.SagaStep? && step.sagaAct.IssueRef? {
      IssueNumbers(w, step.saga, step.sagaAct.year, numbers);
    } else {
      OtherStepsKeepRefs(w, step);
    }
  }

  lemma {:induction false} NumbersInvariant(steps: seq<Step>, w: World) returns (numbers: seq<RefNumber>)
    requires Exec(Empty(), steps) == Some(w)
    ensures NumbersOk(w) && BookingRefsOk(w, numbers)
  {
    numbers := [];
    if steps != [] {
      var v := Before(Empty(), steps);
      numbers := NumbersInvariant(steps[..|steps| - 1], v);
      numbers := NumbersStep(v, steps[|steps| - 1], numbers);
    }
  }

  /**
    No reference is issued twice, counting those drawn by transactions that were retried or
    aborted, and no two bookings carry the same one.
  */
  lemma ReferencesUnique(steps: seq<Step>, w: World)
    requires Exec(Empty(), steps) == Some(w)
    ensures forall i, j :: 0 <= i < j < |w.issued| ==> Print(w.issued[i]) != Print(w.issued[j])
    ensures forall a, b :: 0 <= a < b < |w.bookings| ==> w.bookings[a].bookingRef != w.bookings[b].bookingRef
  {
    var numbers := NumbersInvariant(steps, w);
    forall i, j | 0 <= i < j < |w.issued|
      ensures Print(w.issued[i]) != Print(w.issued[j])
    {
      PrintInjective(w.issued[i], w.issued[j]);
    }
    forall a, b | 0 <= a < b < |w.bookings|
      ensures w.bookings[a].bookingRef != w.bookings[b].bookingRef
    {
      PrintInjective(numbers[a], numbers[b]);
    }
  }

  /** What has been drawn of each year's counter is 1, 2, and so on up to its value: nothing is skipped. */
  ghost predicate NoGaps(w: World) {
    forall year: nat, n: nat ::
      RefNumber(year, n) in w.issued <==> year in w.counters && 1 <= n <= w.counters[year]
  }

  lemma NoGapsStep(w: World, step: Step)
    requires NoGaps(w) && Enabled(w, step)
    ensures NoGaps(Apply(w, step))
  {
    var v := Apply(w, step);
    if step.SagaStep? && step.sagaAct.IssueRef? {
      var last := v.issued[|w.issued|];
      assert v.issued == w.issued + [last];
      forall year: nat, n: nat
        ensures RefNumber(year, n) in v.issued <==> year in v.counters && 1 <= n <= v.counters[year]
      {
        assert RefNumber(year, n) in v.issued <==> RefNumber(year, n) in w.issued || RefNumber(year, n) == last;
      }
    } else {
      assert v.issued == w.issued && v.counters == w.counters;
    }
  }

  /** In every reachable state; the first reference of a year is number 1. */
  lemma {:induction false} NumbersConsecutive(steps: seq<Step>, w: World)
    requires Exec(Empty(), steps) == Some(w)
    ensures NoGaps(w)
  {
    if steps != [] {
      var v := Before(Empty(), steps);
      NumbersConsecutive(steps[..|steps| - 1], v);
      NoGapsStep(v, steps[|steps| - 1]);
    }
  }

  // ── Debit rows ───────────────────────────────────────────────────────────────

  predicate DebitFor(r: Row, b: nat) {
    r.refBooking == Some(b) && r.direction == DirDebit
  }

  /** `WalletTx.find({ refBookingId: b, direction: 'debit' })`. */
  function DebitRows(ledger: seq<Row>, b: nat): seq<Row> {
    if ledger == [] then []
    else
      var n := |ledger| - 1;
      DebitRows(ledger[..n], b) + if DebitFor(ledger[n], b) then [ledger[n]] else []
  }

  lemma DebitRowsAppend(ledger: seq<Row>, r: Row, b: nat)
    ensures DebitRows(ledger + [r], b) == DebitRows(ledger, b) + if DebitFor(r, b) then [r] else []
  {
    assert (ledger + [r])[..|ledger|] == ledger;
  }

  lemma {:induction false} NoDebitRows(ledger: seq<Row>, b: nat)
    requires forall i :: 0 <= i < |ledger| ==> !DebitFor(ledger[i], b)
    ensures DebitRows(ledger, b) == []
  {
    if ledger != [] {
      NoDebitRows(ledger[..|ledger| - 1], b);
    }
  }

  /** The rows a credit booking has, and an online booking does not. */
  function ExpectedDebits(bookings: seq<Booking>, b: nat): seq<Row>
    requires b < |bookings|
  {
    if bookings[b].paymentMethod == Credit then
      [Row(bookings[b].company, CreditUse, DirDebit, bookings[b].totalAmount, Some(b), None)]
    else []
  }

  predicate DebitsOk(w: World) {
    forall b :: 0 <= b < |w.bookings| ==> DebitRows(w.ledger, b) == ExpectedDebits(w.bookings, b)
  }

  /** The rows a step writes: at most one. */
  function RowsOf(w: World, step: Step): seq<Row>
    requires Enabled(w, step)
  {
    match step
    case SagaStep(i, Commit(_)) => if w.sagas[i].paymentMethod == Credit then [UseRow(w.sagas[i], |w.bookings|)] else []
    case CancelStep(k, LogCancel(written)) => if written then [RefundRow(w.cancels[k])] else []
    case Office(act) => OfficeRows(w, act)
    case _ => []
  }

  lemma LedgerMoves(w: World, step: Step)
    requires Enabled(w, step)
    ensures Apply(w, step).ledger == w.ledger + RowsOf(w, step)
  {
    assert w.ledger + [] == w.ledger;
  }

  lemma NoDebitWritten(w: World, step: Step, b: nat)
    requires Enabled(w, step) && !(step.SagaStep? && step.sagaAct.Commit?)
    ensures RowsOf(w, step) == [] || exists r :: RowsOf(w, step) == [r] && !DebitFor(r, b)
  {
    var rows := RowsOf(w, step);
    if rows != [] {
      assert rows == [rows[0]] && !DebitFor(rows[0], b);
    }
  }

  /** Apart from a commit, a step writes at most one row, and no debit that refers to a booking. */
  lemma NewRows(w: World, step: Step, b: nat)
    requires Enabled(w, step) && !(step.SagaStep? && step.sagaAct.Commit?)
    ensures DebitRows(Apply(w, step).ledger, b) == DebitRows(w.ledger, b)
  {
    var rows := RowsOf(w, step);
    LedgerMoves(w, step);
    NoDebitWritten(w, step, b);
    if rows == [] {
      assert w.ledger + rows == w.ledger;
    } else {
      DebitRowsAppend(w.ledger, rows[0], b);
    }
  }

  /** A commit of a credit saga writes the new booking's one debit; nothing referred to that booking before. */
  lemma CommitRows(w: World, i: nat, act: SagaAct, b: nat)
    requires RowsOk(w) && i < |w.sagas| && SagaEnabled(w, i, act) && act.Commit?
    ensures var v := ApplySaga(w, i, act);
      DebitRows(v.ledger, b) == if b == |w.bookings| then ExpectedDebits(v.bookings, b) else DebitRows(w.ledger, b)
  {
    var s := w.sagas[i];
    if b == |w.bookings| {
      forall r | 0 <= r < |w.ledger|
        ensures !DebitFor(w.ledger[r], b)
      {
        assert RowOk(|w.bookings|, w.ledger[r]);
      }
      NoDebitRows(w.ledger, b);
    }
    DebitRowsAppend(w.ledger, UseRow(s, |w.bookings|), b);
    assert w.ledger + [] == w.ledger;
  }

  lemma DebitsStep(w: World, step: Step)
    requires RowsOk(w) && DebitsOk(w) && Enabled(w, step)
    ensures DebitsOk(Apply(w, step))
  {
    var v := Apply(w, step);
    Grows(w, step);
    forall b | 0 <= b < |v.bookings|
      ensures DebitRows(v.ledger, b) == ExpectedDebits(v.bookings, b)
    {
      if step.SagaStep? && step.sagaAct.Commit? {
        CommitRows(w, step.saga, step.sagaAct, b);
      } else {
        NewRows(w, step, b);
      }
    }
  }

  /**
    In every reachable state, after any status override too, a credit booking has exactly one
    debit row that refers to it, of its own company and total; an online booking has none.
  */
  lemma {:induction false} OneDebitPerBooking(steps: seq<Step>, w: World)
    requires Exec(Empty(), steps) == Some(w)
    ensures DebitsOk(w)
  {
    if steps != [] {
      var v := Before(Empty(), steps);
      OneDebitPerBooking(steps[..|steps| - 1], v);
      Invariant(steps[..|steps| - 1], v, 0);
      DebitsStep(v, steps[|steps| - 1]);
    }
  }
}
