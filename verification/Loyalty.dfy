/** server/src/modules/wallet: loyalty points earned by bookings and redeemed into the wallet. */
module Loyalty {
  import opened Wrappers
  import opened Sums
  import opened Companies

  /** The active rule. Points per AED may be fractional. */
  datatype Rule = Rule(pointsPerAed: real, pointValueFils: nat, minAmountAed: int)

  datatype Currency = AED | USD

  datatype RowKind = Earned | Redeemed

  /** LOYALTY_EARN and LOYALTY_REDEEM rows. */
  datatype Row = Row(kind: RowKind, amount: int, points: int, pointsBalanceAfter: int, balanceAfter: int)

  // ── Points for a booking ─────────────────────────────────────────────────────

  /** `Math.round`: the nearest integer, halves rounded up. */
  function Round(x: real): int {
    (x + 0.5).Floor
  }

  /** The amount the points are computed on, in fils. */
  function AedFils(total: int, currency: Currency): int {
    if currency == USD then Round(total as real * 3.67) else total
  }

  function ComputeLoyaltyPoints(amountFils: int, pointsPerAed: real): int {
    (amountFils as real / 100.0 * pointsPerAed).Floor
  }

  /** What awardLoyaltyPoints grants; zero when it returns early. */
  function PointsFor(rule: Rule, total: int, currency: Currency, eligible: bool): nat {
    var aedFils := AedFils(total, currency);
    var points := ComputeLoyaltyPoints(aedFils, rule.pointsPerAed);
    if !eligible || aedFils < rule.minAmountAed * 100 || points <= 0 then 0 else points
  }

  /** Any integer nearest to the amount in AED, halves rounded up, is the one used. */
  predicate InFils(total: int, currency: Currency, fils: int) {
    if currency == AED then fils == total
    else fils as real - 0.5 <= total as real * 3.67 < fils as real + 0.5
  }

  lemma FilsExactly(total: int, currency: Currency, fils: int)
    ensures AedFils(total, currency) == fils <==> InFils(total, currency, fils)
  {
  }

  /**
    What a booking earns: nothing unless its hotel is eligible, its amount reaches the minimum and is
    worth a point; else the whole points that its amount in AED times pointsPerAed is worth.
  */
  lemma PointsExactly(rule: Rule, total: int, currency: Currency, eligible: bool, fils: int)
    requires InFils(total, currency, fils)
    ensures var points := PointsFor(rule, total, currency, eligible);
      && (points > 0 <==> eligible && fils >= rule.minAmountAed * 100 && fils as real * rule.pointsPerAed >= 100.0)
      && (points > 0 ==> points as real * 100.0 <= fils as real * rule.pointsPerAed < (points + 1) as real * 100.0)
  {
    FilsExactly(total, currency, fils);
    var worth := fils as real / 100.0 * rule.pointsPerAed;
    assert worth * 100.0 == fils as real * rule.pointsPerAed;
    assert ComputeLoyaltyPoints(fils, rule.pointsPerAed) == worth.Floor;
  }

  // ── State ────────────────────────────────────────────────────────────────────

  /**
    A company and its stored rows. `updates` are the rows the balance updates gave rise to, in the
    order of the updates; a row is stored, or lost, later and on its own. `order` says which update
    each stored row belongs to, `settled` whose row has been stored or lost. The rest tallies the run:
    points awarded and redeemed, and the amounts the awards were based on. `balancesRead` are the balances
    that redemptions have read, in order, and `used` the reads whose redemption has gone on.
  */
  datatype State = State(
    company: Company, rows: seq<Row>, updates: seq<Row>, order: seq<nat>, settled: set<nat>,
    awarded: nat, redeemed: nat, basis: int, balancesRead: seq<int>, used: set<nat>)

  /** One `$inc` of the points; the row shows the balances it returned. */
  function Earn(rule: Rule, s: State, points: nat, fils: int): State {
    var c := s.company.(loyaltyPoints := s.company.loyaltyPoints + points);
    s.(company := c, awarded := s.awarded + points, basis := s.basis + fils,
       updates := s.updates + [Row(Earned, points * rule.pointValueFils, points, c.loyaltyPoints, c.walletBalance)])
  }

  /** One `$inc` that moves points into the wallet. */
  function Redeem(rule: Rule, s: State, points: nat): State {
    var credit := points * rule.pointValueFils;
    var c := s.company.(loyaltyPoints := s.company.loyaltyPoints - points, walletBalance := s.company.walletBalance + credit);
    s.(company := c, redeemed := s.redeemed + points,
       updates := s.updates + [Row(Redeemed, credit, points, c.loyaltyPoints, c.walletBalance)])
  }

  /** A redemption reads the company. */
  function Look(s: State): State {
    s.(balancesRead := s.balancesRead + [s.company.loyaltyPoints])
  }

  /** A read whose redemption has not gone on yet. */
  predicate Open(s: State, read: nat) {
    read < |s.balancesRead| && read !in s.used
  }

  /** The redemption goes on: it is refused, or it takes the points. */
  function GoOn(rule: Rule, s: State, points: nat, read: nat): State
    requires Open(s, read)
  {
    var t := s.(used := s.used + {read});
    if s.balancesRead[read] < points then t else Redeem(rule, t, points)
  }

  predicate Due(s: State, k: nat) {
    k < |s.updates| && k !in s.settled
  }

  /** The row of the k-th update is stored, or lost. */
  function Settle(s: State, k: nat, written: bool): State
    requires Due(s, k)
  {
    var t := s.(settled := s.settled + {k});
    if written then t.(rows := s.rows + [s.updates[k]], order := s.order + [k]) else t
  }

  // ── The service ──────────────────────────────────────────────────────────────

  class WalletService {
    const rule: Rule
    var company: Company
    var rows: seq<Row>
    ghost var updates: seq<Row>
    ghost var order: seq<nat>
    ghost var settled: set<nat>
    ghost var awarded: nat
    ghost var redeemed: nat
    ghost var basis: int
    ghost var balancesRead: seq<int>
    ghost var used: set<nat>

    constructor (rule: Rule, limit: int)
      ensures this.rule == rule && View() == Run(rule, limit, [])
    {
      this.rule := rule;
      company := Company(limit, 0, 0, 0);
      rows, updates, order, settled := [], [], [], {};
      awarded, redeemed, basis := 0, 0, 0;
      balancesRead, used := [], {};
    }

    ghost function View(): State
      reads this
    {
      State(company, rows, updates, order, settled, awarded, redeemed, basis, balancesRead, used)
    }

    /** The update of addLoyaltyPoints; the row is saved after another lookup. */
    method IncrementPoints(points: nat, ghost fils: int) returns (row: Row)
      modifies this
      ensures View() == Earn(rule, old(View()), points, fils) && row == updates[|old(updates)|]
      ensures company == old(company).(loyaltyPoints := old(company).loyaltyPoints + points)
      ensures row == Row(Earned, points * rule.pointValueFils, points, company.loyaltyPoints, company.walletBalance)
    {
      company := company.(loyaltyPoints := company.loyaltyPoints + points);
      row := Row(Earned, points * rule.pointValueFils, points, company.loyaltyPoints, company.walletBalance);
      updates := updates + [row];
      awarded, basis := awarded + points, basis + fils;
    }

    /** `written` says whether the row was stored. */
    method SaveRow(row: Row, written: bool, ghost k: nat)
      requires Due(View(), k) && row == updates[k]
      modifies this
      ensures View() == Settle(old(View()), k, written)
    {
      if written {
        rows := rows + [row];
        order := order + [k];
      }
      settled := settled + {k};
    }

    method AddLoyaltyPoints(points: nat, written: bool, ghost fils: int)
      requires |updates| !in settled
      modifies this
      ensures View() == Settle(Earn(rule, old(View()), points, fils), old(|updates|), written)
    {
      ghost var k := |updates|;
      var row := IncrementPoints(points, fils);
      SaveRow(row, written, k);
    }

    method AwardLoyaltyPoints(total: int, currency: Currency, eligible: bool, written: bool) returns (points: nat)
      requires |updates| !in settled
      modifies this
      ensures points == PointsFor(rule, total, currency, eligible)
      ensures View() ==
        if points == 0 then old(View())
        else Settle(Earn(rule, old(View()), points, AedFils(total, currency)), old(|updates|), written)
    {
      points := 0;
      if !eligible {
        return;
      }
      var aedFils := AedFils(total, currency);
      if aedFils < rule.minAmountAed * 100 {
        return;
      }
      var computed := ComputeLoyaltyPoints(aedFils, rule.pointsPerAed);
      if computed <= 0 {
        return;
      }
      points := computed;
      AddLoyaltyPoints(points, written, aedFils);
    }

    /** findById, on behalf of a redemption. */
    method ReadPoints() returns (seen: int)
      modifies this
      ensures View() == Look(old(View())) && seen == balancesRead[|old(balancesRead)|] == company.loyaltyPoints
    {
      seen := company.loyaltyPoints;
      balancesRead := balancesRead + [seen];
    }

    /** The check against the balance read, and the update, which checks nothing. */
    method TakePoints(points: nat, seen: int, ghost read: nat) returns (row: Option<Row>)
      requires Open(View(), read) && seen == balancesRead[read]
      modifies this
      ensures View() == GoOn(rule, old(View()), points, read)
      ensures row == if points <= seen then Some(updates[|old(updates)|]) else None
      ensures points > seen ==> company == old(company)
      ensures points <= seen ==>
        && company.loyaltyPoints == old(company).loyaltyPoints - points
        && company.walletBalance == old(company).walletBalance + points * rule.pointValueFils
        && company.creditLimit == old(company).creditLimit && company.outstandingBalance == old(company).outstandingBalance
        && row == Some(Row(Redeemed, points * rule.pointValueFils, points, company.loyaltyPoints, company.walletBalance))
    {
      used := used + {read};
      if seen < points {
        return None;
      }
      var walletCredit := points * rule.pointValueFils;
      company := company.(loyaltyPoints := company.loyaltyPoints - points, walletBalance := company.walletBalance + walletCredit);
      var r := Row(Redeemed, walletCredit, points, company.loyaltyPoints, company.walletBalance);
      updates := updates + [r];
      redeemed := redeemed + points;
      return Some(r);
    }

    /** The whole redemption, when nothing comes between its parts. */
    method RedeemLoyaltyPoints(points: nat, written: bool) returns (ok: bool)
      requires |updates| !in settled && |balancesRead| !in used
      modifies this
      ensures ok <==> points <= old(company.loyaltyPoints)
      ensures View() ==
        var taken := GoOn(rule, Look(old(View())), points, old(|balancesRead|));
        if ok then Settle(taken, old(|updates|), written) else taken
    {
      ghost var k, read := |updates|, |balancesRead|;
      var seen := ReadPoints();
      var row := TakePoints(points, seen, read);
      ok := row.Some?;
      if ok {
        SaveRow(row.value, written, k);
      }
    }
  }

  // ── Runs ─────────────────────────────────────────────────────────────────────

  /** The points at which awards and redemptions touch the database; those of different calls interleave. */
  datatype Step =
    | Award(total: int, currency: Currency, eligible: bool)
    | Read
    | Redemption(points: nat, read: nat)
    | WriteRow(update: nat, written: bool)

  function Next(rule: Rule, s: State, step: Step): State {
    match step
    case Award(total, currency, eligible) =>
      var points := PointsFor(rule, total, currency, eligible);
      if points == 0 then s else Earn(rule, s, points, AedFils(total, currency))
    case Read => Look(s)
    case Redemption(points, read) => if Open(s, read) then GoOn(rule, s, points, read) else s
    case WriteRow(k, written) => if Due(s, k) then Settle(s, k, written) else s
  }

  function Run(rule: Rule, limit: int, steps: seq<Step>): State {
    if steps == [] then State(Company(limit, 0, 0, 0), [], [], [], {}, 0, 0, 0, [], {})
    else Next(rule, Run(rule, limit, steps[..|steps| - 1]), steps[|steps| - 1])
  }

  /** Some redemption has read the balance, and since the last read none has gone on. */
  predicate FreshRead(steps: seq<Step>) {
    steps != [] && (steps[|steps| - 1].Read? || (!steps[|steps| - 1].Redemption? && FreshRead(steps[..|steps| - 1])))
  }

  /**
    Redemptions are serialised: each goes on with the latest read, and no other redemption comes
    between that read and its update. Awards may, and so may the rows of earlier updates.
  */
  predicate Serialised(rule: Rule, limit: int, steps: seq<Step>) {
    steps != [] ==>
      var n := |steps| - 1;
      && Serialised(rule, limit, steps[..n])
      && (steps[n].Redemption? ==> FreshRead(steps[..n]) && steps[n].read == |Run(rule, limit, steps[..n]).balancesRead| - 1)
  }

  /** Between a read and the next redemption the points only grow. */
  lemma {:induction false} ReadStillCovered(rule: Rule, limit: int, steps: seq<Step>)
    requires FreshRead(steps)
    ensures var s := Run(rule, limit, steps);
      |s.balancesRead| > 0 && s.balancesRead[|s.balancesRead| - 1] <= s.company.loyaltyPoints
  {
    var n := |steps| - 1;
    if !steps[n].Read? {
      ReadStillCovered(rule, limit, steps[..n]);
    }
  }

  lemma AwardBound(rule: Rule, total: int, currency: Currency, eligible: bool)
    requires PointsFor(rule, total, currency, eligible) > 0
    ensures PointsFor(rule, total, currency, eligible) as real * 100.0 <= rule.pointsPerAed * AedFils(total, currency) as real
  {
    var fils := AedFils(total, currency) as real;
    assert fils / 100.0 * rule.pointsPerAed * 100.0 == rule.pointsPerAed * fils;
  }

  predicate Conserved(rule: Rule, s: State) {
    && s.company.loyaltyPoints + s.redeemed == s.awarded
    && s.company.walletBalance == s.redeemed * rule.pointValueFils
    && s.awarded as real * 100.0 <= rule.pointsPerAed * s.basis as real
  }

  lemma AwardConserves(rule: Rule, s: State, step: Step)
    requires Conserved(rule, s) && step.Award?
    ensures Conserved(rule, Next(rule, s, step))
  {
    if PointsFor(rule, step.total, step.currency, step.eligible) > 0 {
      AwardBound(rule, step.total, step.currency, step.eligible);
      Distribute(rule.pointsPerAed, s.basis, AedFils(step.total, step.currency));
    }
  }

  lemma Distribute(x: real, a: int, b: int)
    ensures x * (a + b) as real == x * a as real + x * b as real
  {
  }

  lemma RedemptionConserves(rule: Rule, s: State, step: Step)
    requires Conserved(rule, s) && step.Redemption?
    ensures Conserved(rule, Next(rule, s, step))
  {
    assert (s.redeemed + step.points) * rule.pointValueFils == s.redeemed * rule.pointValueFils + step.points * rule.pointValueFils;
  }

  /** Points are conserved, awards are within the rule, and redemptions are paid at the rule's value. */
  lemma {:induction false} PointsConserved(rule: Rule, limit: int, steps: seq<Step>)
    ensures Conserved(rule, Run(rule, limit, steps))
  {
    if steps != [] {
      var n := |steps| - 1;
      PointsConserved(rule, limit, steps[..n]);
      if steps[n].Award? {
        AwardConserves(rule, Run(rule, limit, steps[..n]), steps[n]);
      } else if steps[n].Redemption? {
        RedemptionConserves(rule, Run(rule, limit, steps[..n]), steps[n]);
      }
    }
  }

  /** With serialised redemptions the points never go negative: what was read is still there at the update. */
  lemma {:induction false} PointsNonNegative(rule: Rule, limit: int, steps: seq<Step>)
    requires Serialised(rule, limit, steps)
    ensures Run(rule, limit, steps).company.loyaltyPoints >= 0
  {
    if steps != [] {
      var n := |steps| - 1;
      PointsNonNegative(rule, limit, steps[..n]);
      if steps[n].Redemption? {
        ReadStillCovered(rule, limit, steps[..n]);
      }
    }
  }

  /** The points are non-negative at the end of the run and before. */
  predicate NeverNegative(rule: Rule, limit: int, steps: seq<Step>) {
    && Run(rule, limit, steps).company.loyaltyPoints >= 0
    && (steps != [] ==> NeverNegative(rule, limit, steps[..|steps| - 1]))
  }

  /** A redemption that goes on and passes its check. */
  predicate Takes(s: State, step: Step) {
    step.Redemption? && Open(s, step.read) && step.points <= s.balancesRead[step.read]
  }

  /** The guard the update would need: no redemption that passed its check takes more points than there are. */
  predicate NeverOverdrawn(rule: Rule, limit: int, steps: seq<Step>) {
    steps != [] ==>
      var n := |steps| - 1;
      && NeverOverdrawn(rule, limit, steps[..n])
      && (Takes(Run(rule, limit, steps[..n]), steps[n]) ==>
            steps[n].points <= Run(rule, limit, steps[..n]).company.loyaltyPoints)
  }

  /** Exactly then the points never go negative. */
  lemma {:induction false} NeverNegativeExactly(rule: Rule, limit: int, steps: seq<Step>)
    ensures NeverNegative(rule, limit, steps) <==> NeverOverdrawn(rule, limit, steps)
  {
    if steps != [] {
      NeverNegativeExactly(rule, limit, steps[..|steps| - 1]);
    }
  }

  /**
    With serialised redemptions, all the wallet credit ever redeemed is within
    pointsPerAed * pointValueFils / 100 of what the awarded bookings cost.
  */
  lemma RedeemedWithinEarned(rule: Rule, limit: int, steps: seq<Step>)
    requires Serialised(rule, limit, steps)
    ensures Run(rule, limit, steps).company.loyaltyPoints >= 0
    ensures WithinRule(rule, Run(rule, limit, steps))
  {
    PointsConserved(rule, limit, steps);
    PointsNonNegative(rule, limit, steps);
    PaidWithinRule(rule, Run(rule, limit, steps));
  }

  /** The wallet credit redeemed is at most what the rule pays on the bookings' amounts. */
  predicate WithinRule(rule: Rule, s: State) {
    s.company.walletBalance as real * 100.0 <= rule.pointsPerAed * rule.pointValueFils as real * s.basis as real
  }

  lemma PaidWithinRule(rule: Rule, s: State)
    requires Conserved(rule, s) && s.company.loyaltyPoints >= 0
    ensures WithinRule(rule, s)
  {
    Scale(s.company.walletBalance, s.company.loyaltyPoints, s.redeemed, s.awarded, rule.pointValueFils, rule.pointsPerAed, s.basis as real);
  }

  lemma Scale(wallet: int, points: int, redeemed: nat, awarded: nat, value: nat, perAed: real, basis: real)
    requires points >= 0 && points + redeemed == awarded && wallet == redeemed * value
    requires awarded as real * 100.0 <= perAed * basis
    ensures wallet as real * 100.0 <= perAed * value as real * basis
  {
    var v := value as real;
    var r := redeemed as real * 100.0;
    assert wallet as real == redeemed as real * v;
    assert r <= perAed * basis;
    Monotone(r, perAed * basis, v);
    assert r * v == wallet as real * 100.0;
    assert perAed * basis * v == perAed * v * basis;
  }

  lemma Monotone(x: real, y: real, v: real)
    requires x <= y && v >= 0.0
    ensures x * v <= y * v
  {
  }

  // ── The ledger of points ─────────────────────────────────────────────────────

  function SignedPoints(r: Row): int {
    if r.kind == Earned then r.points else -r.points
  }

  function Signed(): Row -> int {
    (r: Row) => SignedPoints(r)
  }

  /** The i-th row shows the sum of the signed points up to and including it. */
  predicate Shows(rows: seq<Row>, i: nat) {
    i < |rows| && rows[i].pointsBalanceAfter == Sum(rows[..i + 1], Signed())
  }

  predicate RunningAccount(rows: seq<Row>) {
    forall i: nat :: i < |rows| ==> Shows(rows, i)
  }

  /** The stored rows are those of distinct updates. */
  predicate StoredOk(s: State) {
    && |s.rows| == |s.order|
    && (forall j :: 0 <= j < |s.order| ==> s.order[j] < |s.updates| && s.rows[j] == s.updates[s.order[j]] && s.order[j] in s.settled)
    && (forall i, j :: 0 <= i < j < |s.order| ==> s.order[i] != s.order[j])
    && (forall k :: k in s.settled ==> k < |s.updates|)
  }

  predicate Recorded(s: State) {
    s.company.loyaltyPoints == Sum(s.updates, Signed()) && RunningAccount(s.updates) && StoredOk(s)
  }

  lemma AccountMore(points: int, rows: seq<Row>, r: Row)
    requires points == Sum(rows, Signed()) && RunningAccount(rows) && r.pointsBalanceAfter == points + SignedPoints(r)
    ensures r.pointsBalanceAfter == Sum(rows + [r], Signed()) && RunningAccount(rows + [r])
  {
    Append(rows, r, Signed());
    forall i: nat | i < |rows + [r]|
      ensures Shows(rows + [r], i)
    {
      if i < |rows| {
        assert Shows(rows, i);
        assert (rows + [r])[..i + 1] == rows[..i + 1];
      } else {
        assert (rows + [r])[..i + 1] == rows + [r];
      }
    }
  }

  lemma UpdateRecorded(s: State, t: State)
    requires Recorded(s) && |t.updates| == |s.updates| + 1 && t.updates == s.updates + [t.updates[|s.updates|]]
    requires t.rows == s.rows && t.order == s.order && t.settled == s.settled
    requires t.company.loyaltyPoints == t.updates[|s.updates|].pointsBalanceAfter
    requires t.company.loyaltyPoints == s.company.loyaltyPoints + SignedPoints(t.updates[|s.updates|])
    ensures Recorded(t)
  {
    AccountMore(s.company.loyaltyPoints, s.updates, t.updates[|s.updates|]);
  }

  lemma SettleRecorded(s: State, k: nat, written: bool)
    requires Recorded(s) && Due(s, k)
    ensures Recorded(Settle(s, k, written))
  {
  }

  /**
    For every interleaving, and also when rows are lost or late: in the order of the updates the rows
    are a running account of the points, and what is stored are rows of distinct updates.
  */
  lemma {:induction false} PrefixSums(rule: Rule, limit: int, steps: seq<Step>)
    ensures Recorded(Run(rule, limit, steps))
  {
    if steps != [] {
      var n := |steps| - 1;
      var s, t := Run(rule, limit, steps[..n]), Run(rule, limit, steps);
      PrefixSums(rule, limit, steps[..n]);
      if steps[n].WriteRow? {
        if Due(s, steps[n].update) {
          SettleRecorded(s, steps[n].update, steps[n].written);
        }
      } else if t.updates != s.updates {
        UpdateRecorded(s, t);
      }
    }
  }

  // ── When the stored rows are a running account too ───────────────────────────

  function SignedAt(updates: seq<Row>): nat -> int {
    (i: nat) => if i < |updates| then SignedPoints(updates[i]) else 0
  }

  /** Counting only the updates in `stored`. */
  function Among(updates: seq<Row>, stored: seq<nat>): nat -> int {
    (i: nat) => if i < |updates| && i in stored then SignedPoints(updates[i]) else 0
  }

  function NotAmong(updates: seq<Row>, stored: seq<nat>): nat -> int {
    (i: nat) => if i < |updates| && i !in stored then SignedPoints(updates[i]) else 0
  }

  function AmongFrom(updates: seq<Row>, stored: seq<nat>, k: nat): nat -> int {
    (i: nat) => if k <= i < |updates| && i in stored then SignedPoints(updates[i]) else 0
  }

  /** The points of the updates before k whose rows are not stored yet. */
  function Missing(updates: seq<Row>, stored: seq<nat>, k: nat): int {
    SumTo(k, NotAmong(updates, stored))
  }

  /** The points of the updates after k whose rows are already stored. */
  function Ahead(updates: seq<Row>, stored: seq<nat>, k: nat): int {
    SumTo(|updates|, AmongFrom(updates, stored, k))
  }

  lemma OneMore(rows: seq<Row>, j: nat)
    requires j < |rows|
    ensures Sum(rows[..j + 1], Signed()) == Sum(rows[..j], Signed()) + SignedPoints(rows[j])
  {
    assert rows[..j + 1] == rows[..j] + [rows[j]];
    Append(rows[..j], rows[j], Signed());
  }

  /** The rows are those of distinct updates. */
  predicate Picks(updates: seq<Row>, rows: seq<Row>, order: seq<nat>) {
    && |rows| == |order|
    && (forall j :: 0 <= j < |order| ==> order[j] < |updates| && rows[j] == updates[order[j]])
    && (forall i, j :: 0 <= i < j < |order| ==> order[i] != order[j])
  }

  lemma AmongMore(updates: seq<Row>, stored: seq<nat>, k: nat)
    requires k < |updates| && k !in stored
    ensures SumTo(|updates|, Among(updates, stored + [k])) == SumTo(|updates|, Among(updates, stored)) + SignedPoints(updates[k])
  {
    var point := (i: nat) => if i == k then SignedPoints(updates[k]) else 0;
    SumToSplit(|updates|, Among(updates, stored + [k]), Among(updates, stored), point);
    SumToPoint(|updates|, point, k);
  }

  /** When the j-th row is stored, the points of earlier updates not stored yet equal those of later ones stored already. */
  predicate Balances(updates: seq<Row>, order: seq<nat>, j: nat)
    requires j < |order|
  {
    Missing(updates, order[..j], order[j]) == Ahead(updates, order[..j], order[j])
  }

  /** What is stored, summed by update. */
  lemma {:induction false} StoredSum(updates: seq<Row>, rows: seq<Row>, order: seq<nat>)
    requires Picks(updates, rows, order)
    ensures Sum(rows, Signed()) == SumTo(|updates|, Among(updates, order))
  {
    if order == [] {
      SumToPoint(|updates|, Among(updates, []), |updates|);
    } else {
      var n := |order| - 1;
      StoredSum(updates, rows[..n], order[..n]);
      AmongMore(updates, order[..n], order[n]);
      assert order == order[..n] + [order[n]];
    }
  }

  /** A sum up to n is one up to k and one from k on. */
  lemma {:induction false} SumToFrom(updates: seq<Row>, stored: seq<nat>, k: nat, n: nat)
    requires k <= n
    ensures SumTo(n, Among(updates, stored)) == SumTo(k, Among(updates, stored)) + SumTo(n, AmongFrom(updates, stored, k))
  {
    if n == k {
      SumToPoint(n, AmongFrom(updates, stored, k), n);
    } else {
      SumToFrom(updates, stored, k, n - 1);
    }
  }

  lemma UpdatesBefore(updates: seq<Row>, stored: seq<nat>, k: nat)
    requires k <= |updates|
    ensures Sum(updates[..k], Signed()) == SumTo(k, Among(updates, stored)) + Missing(updates, stored, k)
  {
    SumToSum(updates[..k], Signed(), SignedAt(updates));
    SumToSplit(k, SignedAt(updates), Among(updates, stored), NotAmong(updates, stored));
  }

  /** The points stored so far and the points updated before k differ by what is missing and what is ahead. */
  lemma StoredAgainstUpdated(updates: seq<Row>, rows: seq<Row>, order: seq<nat>, k: nat)
    requires Picks(updates, rows, order) && k <= |updates|
    ensures Sum(rows, Signed()) - Sum(updates[..k], Signed()) == Ahead(updates, order, k) - Missing(updates, order, k)
  {
    StoredSum(updates, rows, order);
    SumToFrom(updates, order, k, |updates|);
    UpdatesBefore(updates, order, k);
  }

  /** The j-th stored row fits the account when the points it misses and those it comes after balance. */
  lemma RowFits(updates: seq<Row>, rows: seq<Row>, order: seq<nat>, j: nat)
    requires Picks(updates, rows, order) && j < |order|
    requires Shows(updates, order[j])
    ensures Shows(rows, j) <==> Balances(updates, order, j)
  {
    OneMore(rows, j);
    OneMore(updates, order[j]);
    StoredAgainstUpdated(updates, rows[..j], order[..j], order[j]);
  }

  /**
    The stored rows are a running account exactly when, each time a row is stored, the points of
    earlier updates not stored yet equal those of later updates stored already.
  */
  lemma {:induction false} StoredOrderExactly(rule: Rule, limit: int, steps: seq<Step>)
    ensures var s := Run(rule, limit, steps);
      RunningAccount(s.rows) <==> forall j: nat :: j < |s.order| ==> Balances(s.updates, s.order, j)
  {
    PrefixSums(rule, limit, steps);
    var s := Run(rule, limit, steps);
    forall j: nat | j < |s.order|
      ensures Shows(s.rows, j) <==> Balances(s.updates, s.order, j)
    {
      assert Shows(s.updates, s.order[j]);
      RowFits(s.updates, s.rows, s.order, j);
    }
  }

  /** Rows stored in the order of the updates, without gaps. */
  predicate InOrder(order: seq<nat>, n: nat)
    requires n <= |order|
  {
    forall j :: 0 <= j < n ==> order[j] == j
  }

  predicate OnlyAwards(updates: seq<Row>) {
    forall k :: 0 <= k < |updates| ==> updates[k].kind == Earned && updates[k].points > 0
  }

  lemma {:induction false} Increasing(updates: seq<Row>, i: nat, k: nat)
    requires OnlyAwards(updates) && i <= k <= |updates|
    ensures Sum(updates[..i], Signed()) + (k - i) <= Sum(updates[..k], Signed())
  {
    if i < k {
      Increasing(updates, i, k - 1);
      assert updates[..k] == updates[..k - 1] + [updates[k - 1]];
      Append(updates[..k - 1], updates[k - 1], Signed());
    }
  }

  lemma StoredInOrder(s: State, n: nat)
    requires StoredOk(s) && n <= |s.order| && InOrder(s.order, n)
    ensures n <= |s.updates| && s.rows[..n] == s.updates[..n]
  {
    if n > 0 {
      assert s.order[n - 1] == n - 1;
    }
  }

  /** A row of a running account shows the points before it and its own. */
  lemma RowAt(rows: seq<Row>, j: nat)
    requires RunningAccount(rows) && j < |rows|
    ensures rows[j].pointsBalanceAfter == Sum(rows[..j], Signed()) + SignedPoints(rows[j])
  {
    assert Shows(rows, j);
    OneMore(rows, j);
  }

  /** The points before the k-th and before the n-th update are the same only if those are the same update. */
  lemma NextInOrder(updates: seq<Row>, n: nat, k: nat)
    requires OnlyAwards(updates) && n <= |updates| && k < |updates|
    requires Sum(updates[..k], Signed()) == Sum(updates[..n], Signed())
    ensures k == n
  {
    if k < n {
      Increasing(updates, k, n);
    } else {
      Increasing(updates, n, k);
    }
  }

  lemma SamePrefix(s: State, n: nat)
    requires StoredOk(s) && n <= |s.order| && InOrder(s.order, n)
    ensures n <= |s.updates| && Sum(s.rows[..n], Signed()) == Sum(s.updates[..n], Signed())
  {
    StoredInOrder(s, n);
  }

  lemma NextStored(s: State, n: nat)
    requires Recorded(s) && OnlyAwards(s.updates) && RunningAccount(s.rows) && n < |s.order| && InOrder(s.order, n)
    ensures s.order[n] == n
  {
    SamePrefix(s, n);
    SamePoints(s, n);
    NextInOrder(s.updates, n, s.order[n]);
  }

  lemma {:induction false} AccountInOrder(s: State, n: nat)
    requires Recorded(s) && OnlyAwards(s.updates) && RunningAccount(s.rows) && n <= |s.order|
    ensures InOrder(s.order, n)
  {
    if n > 0 {
      AccountInOrder(s, n - 1);
      NextStored(s, n - 1);
    }
  }

  lemma SamePoints(s: State, j: nat)
    requires RunningAccount(s.updates) && StoredOk(s) && RunningAccount(s.rows) && j < |s.order|
    ensures s.order[j] < |s.updates| && Sum(s.updates[..s.order[j]], Signed()) == Sum(s.rows[..j], Signed())
  {
    RowAt(s.rows, j);
    RowAt(s.updates, s.order[j]);
  }

  /** When points are only awarded, that is exactly when the rows are stored in the order of the updates and none before a stored one is lost. */
  lemma {:induction false} AwardsInOrder(rule: Rule, limit: int, steps: seq<Step>)
    requires OnlyAwards(Run(rule, limit, steps).updates)
    ensures var s := Run(rule, limit, steps);
      RunningAccount(s.rows) <==> InOrder(s.order, |s.order|)
  {
    PrefixSums(rule, limit, steps);
    var s := Run(rule, limit, steps);
    if InOrder(s.order, |s.order|) {
      StoredInOrder(s, |s.order|);
      assert s.rows[..|s.rows|] == s.rows;
      forall j: nat | j < |s.rows|
        ensures Shows(s.rows, j)
      {
        assert Shows(s.updates, j) && s.rows[..j + 1] == s.updates[..j + 1];
      }
    }
    if RunningAccount(s.rows) {
      AccountInOrder(s, |s.order|);
    }
  }

  // ── Runs that go wrong ───────────────────────────────────────────────────────

  lemma RunMore(rule: Rule, limit: int, steps: seq<Step>, step: Step)
    ensures Run(rule, limit, steps + [step]) == Next(rule, Run(rule, limit, steps), step)
  {
    assert (steps + [step])[..|steps|] == steps;
  }

  /** One award, two redemptions of all its points that both read the balance, and then both updates. */
  lemma {:induction false} ParallelRedemptionsOverdraw(rule: Rule, limit: int, total: int) returns (steps: seq<Step>)
    requires PointsFor(rule, total, AED, true) > 0
    ensures var points := PointsFor(rule, total, AED, true);
      && steps == [Award(total, AED, true), Read, Read, Redemption(points, 0), Redemption(points, 1)]
      && Run(rule, limit, steps).company.loyaltyPoints == 0 - points
  {
    var points := PointsFor(rule, total, AED, true);
    var before := [] + [Award(total, AED, true)] + [Read] + [Read];
    steps := before + [Redemption(points, 0)] + [Redemption(points, 1)];
    RunMore(rule, limit, [], Award(total, AED, true));
    RunMore(rule, limit, [] + [Award(total, AED, true)], Read);
    RunMore(rule, limit, [] + [Award(total, AED, true)] + [Read], Read);
    var s := Run(rule, limit, before);
    assert s.balancesRead == [points, points] && s.used == {} && s.company.loyaltyPoints == points;
    RunMore(rule, limit, before, Redemption(points, 0));
    RunMore(rule, limit, before + [Redemption(points, 0)], Redemption(points, 1));
  }

  lemma TwoAwards(rule: Rule, limit: int, total: int, s: State)
    requires PointsFor(rule, total, AED, true) > 0
    requires s == Run(rule, limit, [] + [Award(total, AED, true)] + [Award(total, AED, true)])
    ensures |s.updates| == 2 && OnlyAwards(s.updates) && s.order == [] && s.settled == {}
  {
    var award := Award(total, AED, true);
    RunMore(rule, limit, [], award);
    RunMore(rule, limit, [] + [award], award);
  }

  /** The rows of two updates, stored the other way round. */
  lemma StoredBackwards(rule: Rule, limit: int, before: seq<Step>, s: State)
    requires s == Run(rule, limit, before) && |s.updates| == 2 && s.order == [] && s.settled == {}
    ensures var t := Run(rule, limit, before + [WriteRow(1, true)] + [WriteRow(0, true)]);
      t.order == [1, 0] && t.updates == s.updates
  {
    RunMore(rule, limit, before, WriteRow(1, true));
    RunMore(rule, limit, before + [WriteRow(1, true)], WriteRow(0, true));
    assert [] + [1] + [0] == [1, 0];
  }

  /** Rows stored the other way round are not in order. */
  lemma NoAccount(rule: Rule, limit: int, steps: seq<Step>, s: State)
    requires s == Run(rule, limit, steps) && OnlyAwards(s.updates) && s.order == [1, 0]
    ensures !RunningAccount(s.rows)
  {
    AwardsInOrder(rule, limit, steps);
    assert s.order[0] == 1;
  }

  /** Two awards whose rows are stored the other way round: the stored rows are no running account. */
  lemma {:induction false} LateRow(rule: Rule, limit: int, total: int) returns (steps: seq<Step>)
    requires PointsFor(rule, total, AED, true) > 0
    ensures Run(rule, limit, steps).order == [1, 0] && !RunningAccount(Run(rule, limit, steps).rows)
  {
    var awards := [] + [Award(total, AED, true)] + [Award(total, AED, true)];
    TwoAwards(rule, limit, total, Run(rule, limit, awards));
    StoredBackwards(rule, limit, awards, Run(rule, limit, awards));
    steps := awards + [WriteRow(1, true)] + [WriteRow(0, true)];
    NoAccount(rule, limit, steps, Run(rule, limit, steps));
  }
}
