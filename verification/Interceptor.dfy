/**
  apps/client auth.interceptor.ts: one token refresh for many requests that meet a 401. Callbacks
  run to completion one at a time and interleave in any order.
*/
module Interceptor {
  import opened Wrappers

  type RequestId = nat

  /** Where a request is. */
  datatype Pc =
    | First        // sent, no answer yet
    | Waiting      // subscribed to refreshDone$
    | Owner        // its refreshToken() call is in flight
    | OwnReplay    // replayed by the owner, still inside the owner's catchError
    | Replay       // replayed by a waiter
    | Done

  /** `sent` is the log of requests handed to `next.handle`, `waiting` the subscribers in order. */
  datatype State = State(isRefreshing: bool, refreshDone: bool, pcs: seq<Pc>, waiting: seq<RequestId>, sent: seq<RequestId>, loggedOut: bool)

  function Initial(): State {
    State(false, false, [], [], [], false)
  }

  datatype Event =
    | Intercept                                   // a request is intercepted and sent
    | Answer(id: RequestId, unauthorized: bool)   // its first answer; a 401 on a URL outside /auth/, or anything else
    | RefreshOk(id: RequestId)
    | RefreshFails(id: RequestId)
    | ReplayAnswer(id: RequestId, failed: bool)

  predicate Is(s: State, id: RequestId, pc: Pc) {
    id < |s.pcs| && s.pcs[id] == pc
  }

  predicate Enabled(s: State, e: Event) {
    match e
    case Intercept => true
    case Answer(id, _) => Is(s, id, First)
    case RefreshOk(id) => Is(s, id, Owner)
    case RefreshFails(id) => Is(s, id, Owner)
    case ReplayAnswer(id, _) => Is(s, id, OwnReplay) || Is(s, id, Replay)
  }

  /** `refreshDone$.next(true)`: every waiting request is replayed, in the order of subscription. */
  function Release(pcs: seq<Pc>, waiting: seq<RequestId>): (released: seq<Pc>)
    ensures |released| == |pcs|
  {
    seq(|pcs|, i requires 0 <= i < |pcs| => if i in waiting then Replay else pcs[i])
  }

  function Next(s: State, e: Event): State
    requires Enabled(s, e)
  {
    match e
    case Intercept => s.(pcs := s.pcs + [First], sent := s.sent + [|s.pcs|])
    case Answer(id, unauthorized) =>
      if !unauthorized then s.(pcs := s.pcs[id := Done])
      else if !s.isRefreshing then s.(isRefreshing := true, refreshDone := false, pcs := s.pcs[id := Owner])
      else if s.refreshDone then s.(pcs := s.pcs[id := Replay], sent := s.sent + [id])
      else s.(pcs := s.pcs[id := Waiting], waiting := s.waiting + [id])
    case RefreshOk(id) =>
      s.(isRefreshing := false, refreshDone := true, pcs := Release(s.pcs, s.waiting)[id := OwnReplay],
         waiting := [], sent := s.sent + s.waiting + [id])
    case RefreshFails(id) => s.(isRefreshing := false, pcs := s.pcs[id := Done], loggedOut := true)
    case ReplayAnswer(id, failed) =>
      var v := s.(pcs := s.pcs[id := Done]);
      if failed && s.pcs[id] == OwnReplay then v.(isRefreshing := false, loggedOut := true) else v
  }

  // ── The interceptor ──────────────────────────────────────────────────────────

  class AuthInterceptor {
    var isRefreshing: bool
    var refreshDone: bool
    var waiting: seq<RequestId>     // the observers of refreshDone$
    var sent: seq<RequestId>
    var loggedOut: bool
    ghost var pcs: seq<Pc>

    constructor ()
      ensures View() == Initial()
    {
      isRefreshing, refreshDone, waiting, sent, loggedOut := false, false, [], [], false;
      pcs := [];
    }

    ghost function View(): State
      reads this
    {
      State(isRefreshing, refreshDone, pcs, waiting, sent, loggedOut)
    }

    method InterceptRequest(id: RequestId)
      requires id == |pcs|
      modifies this
      ensures View() == Next(old(View()), Intercept)
      ensures sent == old(sent) + [id] && waiting == old(waiting) && isRefreshing == old(isRefreshing)
    {
      sent := sent + [id];
      pcs := pcs + [First];
    }

    /** The catchError of intercept, with handle401. */
    method OnAnswer(id: RequestId, unauthorized: bool)
      requires Enabled(View(), Answer(id, unauthorized))
      modifies this
      ensures View() == Next(old(View()), Answer(id, unauthorized))
      ensures sent == old(sent) + if unauthorized && old(isRefreshing) && old(refreshDone) then [id] else []
      ensures waiting == old(waiting) + if unauthorized && old(isRefreshing) && !old(refreshDone) then [id] else []
      ensures isRefreshing == (old(isRefreshing) || unauthorized) && loggedOut == old(loggedOut)
      ensures refreshDone == (old(refreshDone) && (old(isRefreshing) || !unauthorized))
      ensures (pcs[id] == Owner <==> unauthorized && !old(isRefreshing)) && (pcs[id] == Done <==> !unauthorized)
    {
      assert sent + [] == sent && waiting + [] == waiting;
      if !unauthorized {
        pcs := pcs[id := Done];
        return;
      }
      if isRefreshing {
        if refreshDone {
          sent := sent + [id];
          pcs := pcs[id := Replay];
        } else {
          waiting := waiting + [id];
          pcs := pcs[id := Waiting];
        }
        return;
      }
      isRefreshing := true;
      refreshDone := false;
      pcs := pcs[id := Owner];
    }

    /** The switchMap after refreshToken(): the subject emits, its observers replay, then the owner does. */
    method OnRefreshed(id: RequestId)
      requires Enabled(View(), RefreshOk(id))
      modifies this
      ensures View() == Next(old(View()), RefreshOk(id))
      ensures !isRefreshing && refreshDone && waiting == [] && sent == old(sent) + old(waiting) + [id] && loggedOut == old(loggedOut)
    {
      isRefreshing := false;
      refreshDone := true;
      var k := 0;
      while k < |waiting|
        invariant k <= |waiting| && sent == old(sent) + waiting[..k]
        invariant waiting == old(waiting) && pcs == old(pcs) && !isRefreshing && refreshDone && loggedOut == old(loggedOut)
      {
        sent := sent + [waiting[k]];
        k := k + 1;
      }
      assert waiting[..k] == waiting;
      pcs := Release(pcs, waiting)[id := OwnReplay];
      waiting := [];
      sent := sent + [id];
    }

    /** The owner's catchError: it covers the refresh and the owner's replay. */
    method OnOwnerError(id: RequestId, ghost e: Event)
      requires Enabled(View(), e) && (e == RefreshFails(id) || (e == ReplayAnswer(id, true) && pcs[id] == OwnReplay))
      modifies this
      ensures View() == Next(old(View()), e)
      ensures !isRefreshing && loggedOut && refreshDone == old(refreshDone) && waiting == old(waiting) && sent == old(sent)
    {
      isRefreshing := false;
      loggedOut := true;
      pcs := pcs[id := Done];
    }
  }

  // ── Runs ─────────────────────────────────────────────────────────────────────

  function Run(events: seq<Event>): Option<State> {
    if events == [] then Some(Initial())
    else
      match Run(events[..|events| - 1])
      case None => None
      case Some(s) => if Enabled(s, events[|events| - 1]) then Some(Next(s, events[|events| - 1])) else None
  }

  function Last(events: seq<Event>): (s: State)
    requires events != [] && Run(events).Some?
    ensures Run(events[..|events| - 1]) == Some(s) && Enabled(s, events[|events| - 1])
    ensures Run(events).value == Next(s, events[|events| - 1])
  {
    Run(events[..|events| - 1]).value
  }

  /** How often a request was handed on. */
  function Sends(sent: seq<RequestId>, id: RequestId): nat {
    multiset(sent)[id]
  }

  /** How often it should have been, by where it is. */
  function Expected(pc: Pc): nat {
    if pc == Replay || pc == OwnReplay then 2 else 1
  }

  predicate FlagsOk(s: State) {
    (s.isRefreshing ==> !s.refreshDone) && (s.waiting != [] ==> !s.refreshDone)
  }

  /** The waiting list holds the waiting requests, each once. */
  predicate WaitersOk(s: State) {
    && (forall id :: 0 <= id < |s.pcs| ==> (id in s.waiting <==> s.pcs[id] == Waiting))
    && (forall i :: 0 <= i < |s.waiting| ==> s.waiting[i] < |s.pcs|)
    && (forall i, j :: 0 <= i < j < |s.waiting| ==> s.waiting[i] != s.waiting[j])
  }

  predicate SentRight(pc: Pc, sends: nat) {
    1 <= sends <= 2 && (pc != Done ==> sends == Expected(pc))
  }

  predicate SendsOk(s: State) {
    && (forall i :: 0 <= i < |s.sent| ==> s.sent[i] < |s.pcs|)
    && (forall id :: 0 <= id < |s.pcs| ==> SentRight(s.pcs[id], Sends(s.sent, id)))
  }

  predicate Coherent(s: State) {
    FlagsOk(s) && WaitersOk(s) && SendsOk(s)
  }

  lemma {:induction false} DistinctCount(ids: seq<RequestId>, id: RequestId)
    requires forall i, j :: 0 <= i < j < |ids| ==> ids[i] != ids[j]
    ensures Sends(ids, id) == if id in ids then 1 else 0
  {
    if ids != [] {
      var n := |ids| - 1;
      DistinctCount(ids[..n], id);
      assert ids == ids[..n] + [ids[n]];
    }
  }

  lemma WaitersStep(s: State, e: Event)
    requires WaitersOk(s) && Enabled(s, e)
    ensures WaitersOk(Next(s, e))
  {
  }

  lemma SendsAppend(sent: seq<RequestId>, r: RequestId, id: RequestId)
    ensures Sends(sent + [r], id) == Sends(sent, id) + if r == id then 1 else 0
  {
  }

  lemma NeverSent(sent: seq<RequestId>, id: RequestId)
    requires forall i :: 0 <= i < |sent| ==> sent[i] < id
    ensures Sends(sent, id) == 0
  {
    assert id !in sent;
  }

  lemma ReleaseSends(s: State, id: RequestId, r: RequestId)
    requires WaitersOk(s) && SendsOk(s) && Is(s, id, Owner) && r < |s.pcs|
    ensures var t := Next(s, RefreshOk(id));
      Sends(t.sent, r) == Sends(s.sent, r) + (if s.pcs[r] == Waiting || r == id then 1 else 0)
  {
    DistinctCount(s.waiting, r);
    assert Sends(s.sent + s.waiting, r) == Sends(s.sent, r) + Sends(s.waiting, r);
    SendsAppend(s.sent + s.waiting, id, r);
  }

  /** At most one request is sent by an event other than a release. */
  lemma SentBy(s: State, e: Event, id: RequestId)
    requires Enabled(s, e) && !e.RefreshOk?
    ensures var t := Next(s, e);
      Sends(t.sent, id) == Sends(s.sent, id)
        + if |t.sent| > |s.sent| && id == (if e.Intercept? then |s.pcs| else e.id) then 1 else 0
  {
    if e.Intercept? {
      SendsAppend(s.sent, |s.pcs|, id);
    } else {
      SendsAppend(s.sent, e.id, id);
    }
  }

  lemma SentInRange(s: State, e: Event)
    requires WaitersOk(s) && SendsOk(s) && Enabled(s, e)
    ensures forall i :: 0 <= i < |Next(s, e).sent| ==> Next(s, e).sent[i] < |Next(s, e).pcs|
  {
  }

  lemma SendsAt(s: State, e: Event, id: RequestId)
    requires Enabled(s, e) && !e.RefreshOk? && id < |s.pcs| && SentRight(s.pcs[id], Sends(s.sent, id))
    ensures SentRight(Next(s, e).pcs[id], Sends(Next(s, e).sent, id))
  {
    SentBy(s, e, id);
  }

  lemma ReleaseAt(s: State, owner: RequestId, id: RequestId)
    requires WaitersOk(s) && SendsOk(s) && Is(s, owner, Owner) && id < |s.pcs|
    ensures SentRight(Next(s, RefreshOk(owner)).pcs[id], Sends(Next(s, RefreshOk(owner)).sent, id))
  {
    assert SentRight(s.pcs[id], Sends(s.sent, id));
    ReleaseSends(s, owner, id);
  }

  lemma SendsStep(s: State, e: Event)
    requires WaitersOk(s) && SendsOk(s) && Enabled(s, e)
    ensures SendsOk(Next(s, e))
  {
    var t := Next(s, e);
    SentInRange(s, e);
    forall id | 0 <= id < |t.pcs|
      ensures SentRight(t.pcs[id], Sends(t.sent, id))
    {
      if id < |s.pcs| {
        if e.RefreshOk? {
          ReleaseAt(s, e.id, id);
        } else {
          SendsAt(s, e, id);
        }
      } else {
        NeverSent(s.sent, id);
        SentBy(s, e, id);
      }
    }
  }

  /**
    In every interleaving: while refreshing, refreshDone is false; nobody waits once it is true;
    every request is sent once or twice.
  */
  lemma {:induction false} AlwaysCoherent(events: seq<Event>, s: State)
    requires Run(events) == Some(s)
    ensures Coherent(s)
  {
    if events != [] {
      AlwaysCoherent(events[..|events| - 1], Last(events));
      WaitersStep(Last(events), events[|events| - 1]);
      SendsStep(Last(events), events[|events| - 1]);
    }
  }

  /** A successful refresh replays each waiting request exactly once, the owner once, and nobody else. */
  lemma {:induction false} RefreshReplaysEachWaiterOnce(events: seq<Event>, s: State, id: RequestId, r: RequestId)
    requires Run(events) == Some(s) && Is(s, id, Owner) && r < |s.pcs|
    ensures var t := Next(s, RefreshOk(id));
      && Sends(t.sent, r) == Sends(s.sent, r) + (if s.pcs[r] == Waiting || r == id then 1 else 0)
      && t.waiting == [] && t.pcs[r] != Waiting
  {
    AlwaysCoherent(events, s);
    ReleaseSends(s, id, r);
  }

  // ── At most one refresh ──────────────────────────────────────────────────────

  /** The owner's replay fails while another request's refresh is in flight. */
  predicate StaleFailure(s: State, e: Event) {
    e.ReplayAnswer? && e.failed && Is(s, e.id, OwnReplay) && exists r :: 0 <= r < |s.pcs| && s.pcs[r] == Owner
  }

  predicate NoStaleFailure(events: seq<Event>)
    requires Run(events).Some?
  {
    events != [] ==> NoStaleFailure(events[..|events| - 1]) && !StaleFailure(Last(events), events[|events| - 1])
  }

  predicate AtMostOneOwner(s: State) {
    && (forall i, j :: 0 <= i < j < |s.pcs| ==> s.pcs[i] != Owner || s.pcs[j] != Owner)
    && (forall i :: 0 <= i < |s.pcs| && s.pcs[i] == Owner ==> s.isRefreshing)
  }

  predicate SomeOwner(s: State) {
    exists i :: 0 <= i < |s.pcs| && s.pcs[i] == Owner
  }

  predicate SingleRefresh(s: State) {
    AtMostOneOwner(s) && (s.isRefreshing ==> SomeOwner(s))
  }

  lemma OwnersStep(s: State, e: Event)
    requires AtMostOneOwner(s) && Enabled(s, e) && !StaleFailure(s, e)
    ensures AtMostOneOwner(Next(s, e))
  {
  }

  lemma SomeOwnerStep(s: State, e: Event)
    requires WaitersOk(s) && SingleRefresh(s) && Enabled(s, e) && Next(s, e).isRefreshing
    ensures SomeOwner(Next(s, e))
  {
    var t := Next(s, e);
    if s.isRefreshing {
      var i :| 0 <= i < |s.pcs| && s.pcs[i] == Owner;
      assert t.pcs[i] == Owner;
    } else {
      assert t.pcs[e.id] == Owner;
    }
  }

  /** A step keeps a single refresh exactly when it is not a stale failure. */
  lemma SingleRefreshStep(s: State, e: Event)
    requires WaitersOk(s) && SingleRefresh(s) && Enabled(s, e)
    ensures SingleRefresh(Next(s, e)) <==> !StaleFailure(s, e)
  {
    if StaleFailure(s, e) {
      var r :| 0 <= r < |s.pcs| && s.pcs[r] == Owner;
      assert Next(s, e).pcs[r] == Owner && !Next(s, e).isRefreshing;
    } else {
      OwnersStep(s, e);
      if Next(s, e).isRefreshing {
        SomeOwnerStep(s, e);
      }
    }
  }

  /** Without a stale failure, at most one refresh is in flight, and isRefreshing says whether one is. */
  lemma {:induction false} AtMostOneRefresh(events: seq<Event>, s: State)
    requires Run(events) == Some(s) && NoStaleFailure(events)
    ensures SingleRefresh(s)
  {
    if events != [] {
      AtMostOneRefresh(events[..|events| - 1], Last(events));
      AlwaysCoherent(events[..|events| - 1], Last(events));
      SingleRefreshStep(Last(events), events[|events| - 1]);
    }
  }

  /** A single refresh at the end of the run and before. */
  predicate AlwaysSingle(events: seq<Event>)
    requires Run(events).Some?
  {
    SingleRefresh(Run(events).value) && (events != [] ==> AlwaysSingle(events[..|events| - 1]))
  }

  /** Over any run, there is at most one refresh at any time, the flag saying so, exactly when no owner's replay fails under a newer refresh. */
  lemma {:induction false} AlwaysSingleExactly(events: seq<Event>)
    requires Run(events).Some?
    ensures AlwaysSingle(events) <==> NoStaleFailure(events)
  {
    if events != [] {
      var n := |events| - 1;
      AlwaysSingleExactly(events[..n]);
      AlwaysCoherent(events[..n], Last(events));
      if AlwaysSingle(events[..n]) {
        SingleRefreshStep(Last(events), events[n]);
      }
    }
  }

  ghost predicate Reached(s: State) {
    exists events :: Run(events) == Some(s)
  }

  lemma Then(s: State, e: Event, t: State)
    requires Reached(s) && Enabled(s, e) && t == Next(s, e)
    ensures Reached(t)
  {
    var events :| Run(events) == Some(s);
    assert (events + [e])[..|events|] == events;
    assert Run(events + [e]) == Some(t);
  }

  /** After n requests none of which is answered. */
  function Sent(n: nat): State {
    State(false, false, seq(n, _ => First), [], seq(n, i => i), false)
  }

  lemma {:induction false} ManySent(n: nat)
    ensures Reached(Sent(n))
  {
    if n == 0 {
      assert Run([]) == Some(Initial()) && Sent(0) == Initial();
    } else {
      ManySent(n - 1);
      assert Sent(n) == Next(Sent(n - 1), Intercept);
      Then(Sent(n - 1), Intercept, Sent(n));
    }
  }

  lemma TwoSent()
    ensures Reached(State(false, false, [First, First], [], [0, 1], false))
  {
    ManySent(2);
    assert Sent(2) == State(false, false, [First, First], [], [0, 1], false);
  }

  lemma ThreeSent()
    ensures Reached(State(false, false, [First, First, First], [], [0, 1, 2], false))
  {
    ManySent(3);
    assert Sent(3) == State(false, false, [First, First, First], [], [0, 1, 2], false);
  }

  /** Request 0 refreshed and is replayed; request 1 has started a refresh of its own. */
  lemma SecondRefresh()
    ensures Reached(State(true, false, [OwnReplay, Owner, First], [], [0, 1, 2, 0], false))
  {
    ThreeSent();
    var refreshing := State(true, false, [Owner, First, First], [], [0, 1, 2], false);
    Then(State(false, false, [First, First, First], [], [0, 1, 2], false), Answer(0, true), refreshing);
    var replayed := State(false, true, [OwnReplay, First, First], [], [0, 1, 2, 0], false);
    assert Release(refreshing.pcs, [])[0 := OwnReplay] == replayed.pcs;
    Then(refreshing, RefreshOk(0), replayed);
    Then(replayed, Answer(1, true), State(true, false, [OwnReplay, Owner, First], [], [0, 1, 2, 0], false));
  }

  /** A run in which the replay of request 0 fails under the refresh of request 1, and request 2 then starts a second one. */
  lemma StaleFailureAllowsTwoRefreshes() returns (s: State)
    ensures Reached(s) && Is(s, 1, Owner) && Is(s, 2, Owner)
  {
    SecondRefresh();
    var stale := State(false, false, [Done, Owner, First], [], [0, 1, 2, 0], true);
    Then(State(true, false, [OwnReplay, Owner, First], [], [0, 1, 2, 0], false), ReplayAnswer(0, true), stale);
    s := State(true, false, [Done, Owner, Owner], [], [0, 1, 2, 0], true);
    Then(stale, Answer(2, true), s);
  }

  // ── When the user is logged out ──────────────────────────────────────────────

  /** A refresh fails, or the replay of the request that owned one. */
  predicate OwnerFails(s: State, e: Event) {
    e.RefreshFails? || (e.ReplayAnswer? && e.failed && Is(s, e.id, OwnReplay))
  }

  predicate NoOwnerFailed(events: seq<Event>)
    requires Run(events).Some?
  {
    events != [] ==> NoOwnerFailed(events[..|events| - 1]) && !OwnerFails(Last(events), events[|events| - 1])
  }

  /** Over any run the user is logged out exactly when an owner failed: a waiter's failing replay does not. */
  lemma {:induction false} LoggedOutExactly(events: seq<Event>)
    requires Run(events).Some?
    ensures Run(events).value.loggedOut <==> !NoOwnerFailed(events)
  {
    if events != [] {
      LoggedOutExactly(events[..|events| - 1]);
    }
  }

  // ── How long a request waits ─────────────────────────────────────────────────

  predicate SomeRefreshOk(events: seq<Event>) {
    exists k :: 0 <= k < |events| && events[k].RefreshOk?
  }

  predicate No401(events: seq<Event>) {
    forall k :: 0 <= k < |events| ==> !(events[k].Answer? && events[k].unauthorized)
  }

  /** The prefix of a run is a run. */
  lemma RunPrefix(events: seq<Event>, more: seq<Event>)
    requires more != [] && Run(events + more).Some?
    ensures Run(events + more[..|more| - 1]).Some?
    ensures var s := Run(events + more[..|more| - 1]).value;
      Enabled(s, more[|more| - 1]) && Run(events + more).value == Next(s, more[|more| - 1])
  {
    var n := |more| - 1;
    var all := events + more;
    assert all[..|all| - 1] == events + more[..n] && all[|all| - 1] == more[n];
  }

  /** A waiting request stops waiting only by a successful refresh; one that no longer waits and was let go stays so. */
  lemma WaitingStep(s: State, e: Event, t: State, id: RequestId)
    requires WaitersOk(s) && Enabled(s, e) && t == Next(s, e) && id < |s.pcs|
    ensures id < |t.pcs|
    ensures s.pcs[id] == Waiting ==> t.pcs[id] == if e.RefreshOk? then Replay else Waiting
    ensures s.pcs[id] == Replay || s.pcs[id] == Done ==> t.pcs[id] == Replay || t.pcs[id] == Done
  {
  }

  lemma WaitersAlwaysOk(events: seq<Event>, s: State)
    requires Run(events) == Some(s)
    ensures WaitersOk(s)
  {
    AlwaysCoherent(events, s);
  }

  /**
    Over any continuation of a run, a waiting request waits until a refresh succeeds: it has been let
    go, replayed or done, exactly when some RefreshOk has occurred, and waits otherwise.
  */
  lemma {:induction false} WaitsUntilRefreshed(events: seq<Event>, s: State, more: seq<Event>, t: State, id: RequestId)
    requires Run(events) == Some(s) && Run(events + more) == Some(t) && Is(s, id, Waiting)
    ensures id < |t.pcs| && (t.pcs[id] == Waiting || t.pcs[id] == Replay || t.pcs[id] == Done)
    ensures t.pcs[id] != Waiting <==> SomeRefreshOk(more)
  {
    if more == [] {
      assert events + more == events;
    } else {
      var n := |more| - 1;
      RunPrefix(events, more);
      var u := Run(events + more[..n]).value;
      WaitsUntilRefreshed(events, s, more[..n], u, id);
      WaitersAlwaysOk(events + more[..n], u);
      WaitingStep(u, more[n], t, id);
      SomeMore(more);
    }
  }

  lemma SomeMore(more: seq<Event>)
    requires more != []
    ensures SomeRefreshOk(more) <==> SomeRefreshOk(more[..|more| - 1]) || more[|more| - 1].RefreshOk?
  {
    var n := |more| - 1;
    if SomeRefreshOk(more[..n]) {
      var k :| 0 <= k < n && more[..n][k].RefreshOk?;
      assert more[k].RefreshOk?;
    }
    if k :| 0 <= k < |more| && more[k].RefreshOk? && k < n {
      assert more[..n][k].RefreshOk?;
    }
  }

  lemma NobodyRefreshesStep(s: State, e: Event)
    requires Enabled(s, e) && !SomeOwner(s) && !(e.Answer? && e.unauthorized)
    ensures !SomeOwner(Next(s, e)) && !e.RefreshOk?
  {
  }

  lemma {:induction false} NobodyRefreshes(events: seq<Event>, s: State, more: seq<Event>, t: State)
    requires Run(events) == Some(s) && Run(events + more) == Some(t) && !SomeOwner(s) && No401(more)
    ensures !SomeOwner(t) && !SomeRefreshOk(more)
  {
    if more == [] {
      assert events + more == events;
    } else {
      var n := |more| - 1;
      RunPrefix(events, more);
      var u := Run(events + more[..n]).value;
      NobodyRefreshes(events, s, more[..n], u);
      NobodyRefreshesStep(u, more[n]);
    }
  }

  /** Once no refresh is in flight, a request that still waits is never answered unless another request meets a 401. */
  lemma {:induction false} ForgottenWaiters(events: seq<Event>, s: State, more: seq<Event>, t: State, id: RequestId)
    requires Run(events) == Some(s) && Run(events + more) == Some(t) && Is(s, id, Waiting)
    requires !SomeOwner(s) && No401(more)
    ensures Is(t, id, Waiting)
  {
    NobodyRefreshes(events, s, more, t);
    WaitsUntilRefreshed(events, s, more, t, id);
  }

  lemma OneWaits()
    ensures Reached(State(true, false, [Owner, Waiting], [1], [0, 1], false))
  {
    TwoSent();
    var refreshing := State(true, false, [Owner, First], [], [0, 1], false);
    Then(State(false, false, [First, First], [], [0, 1], false), Answer(0, true), refreshing);
    Then(refreshing, Answer(1, true), State(true, false, [Owner, Waiting], [1], [0, 1], false));
  }

  /** A run that gets there: two 401s, and the refresh of the first fails. */
  lemma FailedRefreshForgets() returns (s: State)
    ensures Reached(s) && Is(s, 1, Waiting) && !SomeOwner(s) && s.loggedOut
  {
    OneWaits();
    s := State(false, false, [Done, Waiting], [1], [0, 1], true);
    Then(State(true, false, [Owner, Waiting], [1], [0, 1], false), RefreshFails(0), s);
  }

  /** A failed refresh leaves its waiters waiting: only a later successful refresh sends them again. */
  lemma FailedRefreshKeepsWaiters(s: State, id: RequestId)
    requires Is(s, id, Owner)
    ensures Next(s, RefreshFails(id)).waiting == s.waiting && Next(s, RefreshFails(id)).sent == s.sent
  {
  }
}
