/** AdminService.getOutstanding: confirmed credit bookings grouped by company and age. */
module OutstandingReport {
  import opened Wrappers
  import opened Sums
  import opened Companies
  import opened Protocol
  import opened Conservation
  import opened Debt

  datatype Bucket = Days0To30 | Days31To60 | Days61To90 | Over90

  const DAY_MS := 1000 * 60 * 60 * 24

  datatype Aging = Aging(upTo30: int, upTo60: int, upTo90: int, over90: int) {
    function In(k: Bucket): int {
      match k
      case Days0To30 => upTo30
      case Days31To60 => upTo60
      case Days61To90 => upTo90
      case Over90 => over90
    }
  }

  /** One entry of companyMap. */
  datatype Entry = Entry(company: CompanyId, total: int, aging: Aging)

  function AgeDays(b: Booking, now: int): int {
    (now - b.createdAt) / DAY_MS
  }

  /** The bucket an age belongs to, stated by its bounds. */
  predicate InBucket(days: int, k: Bucket) {
    match k
    case Days0To30 => days <= 30
    case Days31To60 => 30 < days <= 60
    case Days61To90 => 60 < days <= 90
    case Over90 => 90 < days
  }

  /** The cascade that picks the bucket. */
  function BucketOf(days: int): (k: Bucket)
    ensures InBucket(days, k)
  {
    if days <= 30 then Days0To30 else if days <= 60 then Days31To60 else if days <= 90 then Days61To90 else Over90
  }

  function TotalOf(c: CompanyId): Booking -> int {
    (b: Booking) => if b.company == c then b.totalAmount else 0
  }

  function AgedOf(c: CompanyId, now: int, k: Bucket): Booking -> int {
    (b: Booking) => if b.company == c && InBucket(AgeDays(b, now), k) then b.totalAmount else 0
  }

  // ── What a report says ───────────────────────────────────────────────────────

  predicate EntryOk(found: seq<Booking>, now: int, e: Entry) {
    && e.total == Sum(found, TotalOf(e.company))
    && e.aging == Aging(Sum(found, AgedOf(e.company, now, Days0To30)), Sum(found, AgedOf(e.company, now, Days31To60)),
                        Sum(found, AgedOf(e.company, now, Days61To90)), Sum(found, AgedOf(e.company, now, Over90)))
  }

  predicate Has(found: seq<Booking>, c: CompanyId) {
    exists i :: 0 <= i < |found| && found[i].company == c
  }

  predicate Wanted(e: Entry, bucket: Option<Bucket>) {
    bucket.Some? ==> e.aging.In(bucket.value) > 0
  }

  /** Each company with a booking found appears exactly once, unless the bucket asked for is empty. */
  ghost predicate IsReport(found: seq<Booking>, now: int, bucket: Option<Bucket>, data: seq<Entry>) {
    && (forall i :: 0 <= i < |data| ==> EntryOk(found, now, data[i]) && Has(found, data[i].company) && Wanted(data[i], bucket))
    && (forall i, j :: 0 <= i < j < |data| ==> data[i].company != data[j].company)
    && (forall e: Entry :: EntryOk(found, now, e) && Has(found, e.company) && Wanted(e, bucket) ==> e in data)
  }

  // ── The grouping loop ────────────────────────────────────────────────────────

  function EmptyEntry(c: CompanyId): Entry {
    Entry(c, 0, Aging(0, 0, 0, 0))
  }

  function Charged(e: Entry, amount: int, k: Bucket): Entry {
    var a := e.aging;
    Entry(e.company, e.total + amount,
          match k
          case Days0To30 => a.(upTo30 := a.upTo30 + amount)
          case Days31To60 => a.(upTo60 := a.upTo60 + amount)
          case Days61To90 => a.(upTo90 := a.upTo90 + amount)
          case Over90 => a.(over90 := a.over90 + amount))
  }

  lemma Charge(found: seq<Booking>, now: int, b: Booking, k: Bucket, e: Entry)
    requires EntryOk(found, now, e) && e.company == b.company && InBucket(AgeDays(b, now), k)
    ensures EntryOk(found + [b], now, Charged(e, b.totalAmount, k))
  {
    Append(found, b, TotalOf(e.company));
    Append(found, b, AgedOf(e.company, now, Days0To30));
    Append(found, b, AgedOf(e.company, now, Days31To60));
    Append(found, b, AgedOf(e.company, now, Days61To90));
    Append(found, b, AgedOf(e.company, now, Over90));
  }

  lemma Unrelated(found: seq<Booking>, now: int, b: Booking, e: Entry)
    requires EntryOk(found, now, e) && e.company != b.company
    ensures EntryOk(found + [b], now, e)
  {
    Append(found, b, TotalOf(e.company));
    Append(found, b, AgedOf(e.company, now, Days0To30));
    Append(found, b, AgedOf(e.company, now, Days31To60));
    Append(found, b, AgedOf(e.company, now, Days61To90));
    Append(found, b, AgedOf(e.company, now, Over90));
  }

  lemma Fresh(found: seq<Booking>, now: int, c: CompanyId)
    requires !Has(found, c)
    ensures EntryOk(found, now, EmptyEntry(c))
  {
    AllZero(found, TotalOf(c));
    AllZero(found, AgedOf(c, now, Days0To30));
    AllZero(found, AgedOf(c, now, Days31To60));
    AllZero(found, AgedOf(c, now, Days61To90));
    AllZero(found, AgedOf(c, now, Over90));
  }

  lemma HasAppend(found: seq<Booking>, b: Booking, c: CompanyId)
    ensures Has(found + [b], c) <==> c == b.company || Has(found, c)
  {
    if Has(found, c) {
      var i :| 0 <= i < |found| && found[i].company == c;
      assert (found + [b])[i].company == c;
    }
    assert (found + [b])[|found|] == b;
  }

  /** The map has an entry for each company met, and the entry is right for the bookings seen. */
  ghost predicate Grouped(found: seq<Booking>, now: int, companyMap: map<CompanyId, Entry>) {
    && (forall c :: c in companyMap ==> companyMap[c].company == c && EntryOk(found, now, companyMap[c]))
    && (forall c :: c in companyMap <==> Has(found, c))
  }

  /** The order in which a Map lists its keys: each of them once. */
  ghost predicate Lists(order: seq<CompanyId>, keys: set<CompanyId>) {
    && (forall c :: c in order <==> c in keys)
    && (forall i, j :: 0 <= i < j < |order| ==> order[i] != order[j])
  }

  lemma GroupOne(found: seq<Booking>, now: int, companyMap: map<CompanyId, Entry>, b: Booking, k: Bucket)
    requires Grouped(found, now, companyMap) && InBucket(AgeDays(b, now), k)
    ensures var e := if b.company in companyMap then companyMap[b.company] else EmptyEntry(b.company);
      var next := companyMap[b.company := Charged(e, b.totalAmount, k)];
      Grouped(found + [b], now, next) && next.Keys == companyMap.Keys + {b.company}
  {
    var e := if b.company in companyMap then companyMap[b.company] else EmptyEntry(b.company);
    if b.company !in companyMap {
      Fresh(found, now, b.company);
    }
    assert EntryOk(found, now, e);
    Charge(found, now, b, k, e);
    var next := companyMap[b.company := Charged(e, b.totalAmount, k)];
    forall c
      ensures c in next <==> Has(found + [b], c)
      ensures c in next ==> next[c].company == c && EntryOk(found + [b], now, next[c])
    {
      HasAppend(found, b, c);
      if c in companyMap && c != b.company {
        Unrelated(found, now, b, companyMap[c]);
      }
    }
  }

  lemma ListsMore(order: seq<CompanyId>, keys: set<CompanyId>, c: CompanyId)
    requires Lists(order, keys)
    ensures Lists(if c in keys then order else order + [c], keys + {c})
  {
    assert c in keys ==> keys + {c} == keys;
  }

  /** The companies in the order first met, and their entries. */
  datatype Groups = Groups(order: seq<CompanyId>, entries: map<CompanyId, Entry>)

  /** One turn of the loop. */
  function Add(g: Groups, b: Booking, now: int): Groups {
    var c := b.company;
    var e := if c in g.entries then g.entries[c] else EmptyEntry(c);
    Groups(if c in g.entries then g.order else g.order + [c],
           g.entries[c := Charged(e, b.totalAmount, BucketOf(AgeDays(b, now)))])
  }

  function GroupAll(found: seq<Booking>, now: int): Groups {
    if found == [] then Groups([], map[])
    else Add(GroupAll(found[..|found| - 1], now), found[|found| - 1], now)
  }

  lemma AddKeepsGroups(found: seq<Booking>, now: int, g: Groups, b: Booking, next: Groups)
    requires Grouped(found, now, g.entries) && next == Add(g, b, now)
    ensures Grouped(found + [b], now, next.entries)
  {
    GroupOne(found, now, g.entries, b, BucketOf(AgeDays(b, now)));
  }

  lemma AddKeepsOrder(g: Groups, b: Booking, now: int, next: Groups)
    requires Lists(g.order, g.entries.Keys) && next == Add(g, b, now)
    ensures Lists(next.order, next.entries.Keys)
  {
    ListsMore(g.order, g.entries.Keys, b.company);
    assert next.entries.Keys == g.entries.Keys + {b.company};
  }

  lemma {:induction false} GroupAllRight(found: seq<Booking>, now: int)
    ensures Grouped(found, now, GroupAll(found, now).entries)
    ensures Lists(GroupAll(found, now).order, GroupAll(found, now).entries.Keys)
  {
    if found != [] {
      var n := |found| - 1;
      var g := GroupAll(found[..n], now);
      GroupAllRight(found[..n], now);
      AddKeepsGroups(found[..n], now, g, found[n], GroupAll(found, now));
      AddKeepsOrder(g, found[n], now, GroupAll(found, now));
      assert found == found[..n] + [found[n]];
    }
  }

  /** The grouping loop. */
  method Group(found: seq<Booking>, now: int) returns (order: seq<CompanyId>, companyMap: map<CompanyId, Entry>)
    ensures Grouped(found, now, companyMap) && Lists(order, companyMap.Keys)
  {
    companyMap := map[];
    order := [];
    var n := 0;
    while n < |found|
      invariant n <= |found| && Groups(order, companyMap) == GroupAll(found[..n], now)
    {
      var booking := found[n];
      var c := booking.company;
      var ageDays := AgeDays(booking, now);
      if c !in companyMap {
        order := order + [c];
        companyMap := companyMap[c := EmptyEntry(c)];
      }
      companyMap := companyMap[c := Charged(companyMap[c], booking.totalAmount, BucketOf(ageDays))];
      assert found[..n + 1][..n] == found[..n];
      n := n + 1;
    }
    assert found[..n] == found;
    GroupAllRight(found, now);
  }

  /** The entries picked from the first i companies of the map. */
  predicate Picked(order: seq<CompanyId>, i: nat, companyMap: map<CompanyId, Entry>, bucket: Option<Bucket>, data: seq<Entry>)
    requires i <= |order| && forall c :: c in order ==> c in companyMap
  {
    && (forall j :: 0 <= j < |data| ==>
          data[j].company in companyMap && data[j] == companyMap[data[j].company] && Wanted(data[j], bucket))
    && (forall j, k :: 0 <= j < |data| && i <= k < |order| ==> data[j].company != order[k])
    && (forall j, k :: 0 <= j < k < |data| ==> data[j].company != data[k].company)
    && (forall j :: 0 <= j < i && Wanted(companyMap[order[j]], bucket) ==> companyMap[order[j]] in data)
  }

  lemma PickMore(order: seq<CompanyId>, i: nat, companyMap: map<CompanyId, Entry>, bucket: Option<Bucket>, data: seq<Entry>)
    requires i < |order| && (forall c :: c in order ==> c in companyMap && companyMap[c].company == c)
    requires (forall j, k :: 0 <= j < k < |order| ==> order[j] != order[k]) && Picked(order, i, companyMap, bucket, data)
    ensures var e := companyMap[order[i]];
      Picked(order, i + 1, companyMap, bucket, if Wanted(e, bucket) then data + [e] else data)
  {
    assert order[i] in order;
  }

  lemma PickedIsReport(found: seq<Booking>, now: int, order: seq<CompanyId>, companyMap: map<CompanyId, Entry>,
                       bucket: Option<Bucket>, data: seq<Entry>)
    requires Grouped(found, now, companyMap) && Lists(order, companyMap.Keys)
    requires Picked(order, |order|, companyMap, bucket, data)
    ensures IsReport(found, now, bucket, data)
  {
    forall e: Entry | EntryOk(found, now, e) && Has(found, e.company) && Wanted(e, bucket)
      ensures e in data
    {
      assert e == companyMap[e.company] && e.company in order;
    }
  }

  // ── The report on the timestamps ─────────────────────────────────────────────

  /** What company c owes on bookings created at least `from` and less than `to` milliseconds ago. */
  function Window(c: CompanyId, now: int, from: Option<int>, to: Option<int>): Booking -> int {
    (b: Booking) =>
      if b.company == c && (from.Some? ==> from.value <= now - b.createdAt) && (to.Some? ==> now - b.createdAt < to.value)
      then b.totalAmount else 0
  }

  /** A day has 86400000 ms; ages are whole days, so 30 days lasts until the 31st day is full. */
  predicate Timed(found: seq<Booking>, now: int, e: Entry) {
    && e.total == Sum(found, Window(e.company, now, None, None))
    && e.aging.upTo30 == Sum(found, Window(e.company, now, None, Some(31 * 86400000)))
    && e.aging.upTo60 == Sum(found, Window(e.company, now, Some(31 * 86400000), Some(61 * 86400000)))
    && e.aging.upTo90 == Sum(found, Window(e.company, now, Some(61 * 86400000), Some(91 * 86400000)))
    && e.aging.over90 == Sum(found, Window(e.company, now, Some(91 * 86400000), None))
  }

  /** A bucket asked for must not be empty. */
  predicate Asked(e: Entry, bucket: Option<Bucket>) {
    && (bucket == Some(Days0To30) ==> e.aging.upTo30 > 0)
    && (bucket == Some(Days31To60) ==> e.aging.upTo60 > 0)
    && (bucket == Some(Days61To90) ==> e.aging.upTo90 > 0)
    && (bucket == Some(Over90) ==> e.aging.over90 > 0)
  }

  lemma AgeByTime(b: Booking, now: int)
    ensures InBucket(AgeDays(b, now), Days0To30) <==> now - b.createdAt < 31 * 86400000
    ensures InBucket(AgeDays(b, now), Days31To60) <==> 31 * 86400000 <= now - b.createdAt < 61 * 86400000
    ensures InBucket(AgeDays(b, now), Days61To90) <==> 61 * 86400000 <= now - b.createdAt < 91 * 86400000
    ensures InBucket(AgeDays(b, now), Over90) <==> 91 * 86400000 <= now - b.createdAt
  {
  }

  function Rank(k: Bucket): nat {
    match k
    case Days0To30 => 0
    case Days31To60 => 1
    case Days61To90 => 2
    case Over90 => 3
  }

  /** Time only moves a booking to older buckets. */
  lemma NeverYounger(b: Booking, now: int, later: int)
    requires now <= later
    ensures Rank(BucketOf(AgeDays(b, now))) <= Rank(BucketOf(AgeDays(b, later)))
  {
    AgeByTime(b, now);
    AgeByTime(b, later);
  }

  lemma EntryByTime(found: seq<Booking>, now: int, e: Entry)
    ensures EntryOk(found, now, e) <==> Timed(found, now, e)
  {
    var c := e.company;
    forall b: Booking
      ensures AgedOf(c, now, Days0To30)(b) == Window(c, now, None, Some(31 * 86400000))(b)
      ensures AgedOf(c, now, Days31To60)(b) == Window(c, now, Some(31 * 86400000), Some(61 * 86400000))(b)
      ensures AgedOf(c, now, Days61To90)(b) == Window(c, now, Some(61 * 86400000), Some(91 * 86400000))(b)
      ensures AgedOf(c, now, Over90)(b) == Window(c, now, Some(91 * 86400000), None)(b)
    {
      AgeByTime(b, now);
    }
    SameSum(found, TotalOf(c), Window(c, now, None, None));
    SameSum(found, AgedOf(c, now, Days0To30), Window(c, now, None, Some(31 * 86400000)));
    SameSum(found, AgedOf(c, now, Days31To60), Window(c, now, Some(31 * 86400000), Some(61 * 86400000)));
    SameSum(found, AgedOf(c, now, Days61To90), Window(c, now, Some(61 * 86400000), Some(91 * 86400000)));
    SameSum(found, AgedOf(c, now, Over90), Window(c, now, Some(91 * 86400000), None));
  }

  /** A report, on the timestamps: right entries, each wanted company once, and no wanted company missing. */
  ghost predicate ReportByTime(found: seq<Booking>, now: int, bucket: Option<Bucket>, data: seq<Entry>) {
    && (forall i :: 0 <= i < |data| ==> Timed(found, now, data[i]) && Asked(data[i], bucket))
    && (forall i :: 0 <= i < |data| ==> Has(found, data[i].company))
    && (forall i, j :: 0 <= i < j < |data| ==> data[i].company != data[j].company)
    && (forall e: Entry :: Has(found, e.company) && Timed(found, now, e) && Asked(e, bucket) ==> e in data)
  }

  lemma ReportIsByTime(found: seq<Booking>, now: int, bucket: Option<Bucket>, data: seq<Entry>)
    requires IsReport(found, now, bucket, data)
    ensures ReportByTime(found, now, bucket, data)
  {
    forall e: Entry
      ensures EntryOk(found, now, e) <==> Timed(found, now, e)
    {
      EntryByTime(found, now, e);
    }
    forall i | 0 <= i < |data|
      ensures Timed(found, now, data[i]) && Asked(data[i], bucket)
    {
      assert EntryOk(found, now, data[i]);
    }
    forall e: Entry | Has(found, e.company) && Timed(found, now, e) && Asked(e, bucket)
      ensures e in data
    {
      assert EntryOk(found, now, e) && Wanted(e, bucket);
    }
  }

  method GetOutstanding(found: seq<Booking>, now: int, bucket: Option<Bucket>) returns (data: seq<Entry>)
    ensures IsReport(found, now, bucket, data)
    ensures ReportByTime(found, now, bucket, data)
  {
    var order, companyMap := Group(found, now);
    data := [];
    var i := 0;
    while i < |order|
      invariant i <= |order| && Picked(order, i, companyMap, bucket, data)
    {
      PickMore(order, i, companyMap, bucket, data);
      var entry := companyMap[order[i]];
      if bucket == None || entry.aging.In(bucket.value) > 0 {
        data := data + [entry];
      }
      i := i + 1;
    }
    PickedIsReport(found, now, order, companyMap, bucket, data);
    ReportIsByTime(found, now, bucket, data);
  }

  // ── Consequences ─────────────────────────────────────────────────────────────

  /** The four buckets of a company add up to its total. */
  lemma BucketsAddUp(found: seq<Booking>, now: int, e: Entry)
    requires EntryOk(found, now, e)
    ensures e.aging.upTo30 + e.aging.upTo60 + e.aging.upTo90 + e.aging.over90 == e.total
  {
    var c := e.company;
    var young := (b: Booking) => AgedOf(c, now, Days0To30)(b) + AgedOf(c, now, Days31To60)(b);
    var ripe := (b: Booking) => AgedOf(c, now, Days61To90)(b) + AgedOf(c, now, Over90)(b);
    Split(found, young, AgedOf(c, now, Days0To30), AgedOf(c, now, Days31To60));
    Split(found, ripe, AgedOf(c, now, Days61To90), AgedOf(c, now, Over90));
    Split(found, TotalOf(c), young, ripe);
  }

  /** The report does not depend on the order the query returned the bookings in. */
  lemma OrderIrrelevant(found: seq<Booking>, other: seq<Booking>, now: int, bucket: Option<Bucket>, data: seq<Entry>, data': seq<Entry>)
    requires multiset(found) == multiset(other)
    requires IsReport(found, now, bucket, data) && IsReport(other, now, bucket, data')
    ensures forall e :: e in data <==> e in data'
  {
    forall e: Entry
      ensures EntryOk(found, now, e) <==> EntryOk(other, now, e)
      ensures Has(found, e.company) <==> Has(other, e.company)
    {
      AnyOrder(found, other, TotalOf(e.company));
      AnyOrder(found, other, AgedOf(e.company, now, Days0To30));
      AnyOrder(found, other, AgedOf(e.company, now, Days31To60));
      AnyOrder(found, other, AgedOf(e.company, now, Days61To90));
      AnyOrder(found, other, AgedOf(e.company, now, Over90));
      assert forall b :: b in found <==> b in multiset(found);
      assert forall b :: b in other <==> b in multiset(other);
      if Has(found, e.company) {
        var i :| 0 <= i < |found| && found[i].company == e.company;
        assert found[i] in other;
      }
      if Has(other, e.company) {
        var i :| 0 <= i < |other| && other[i].company == e.company;
        assert other[i] in found;
      }
    }
  }

  function EntryTotal(): Entry -> int {
    (e: Entry) => e.total
  }

  function Amount(): Booking -> int {
    (b: Booking) => b.totalAmount
  }

  function PointAt(c: CompanyId, amount: int): Entry -> int {
    (e: Entry) => if e.company == c then amount else 0
  }

  function SumFor(found: seq<Booking>): Entry -> int {
    (e: Entry) => Sum(found, TotalOf(e.company))
  }

  predicate Distinct(data: seq<Entry>) {
    forall i, j :: 0 <= i < j < |data| ==> data[i].company != data[j].company
  }

  predicate Listed(data: seq<Entry>, c: CompanyId) {
    exists i :: 0 <= i < |data| && data[i].company == c
  }

  lemma {:induction false} PointSum(data: seq<Entry>, c: CompanyId, amount: int)
    requires Distinct(data) && Listed(data, c)
    ensures Sum(data, PointAt(c, amount)) == amount
  {
    var n := |data| - 1;
    if data[n].company == c {
      AllZero(data[..n], PointAt(c, amount));
    } else {
      PointSum(data[..n], c, amount);
    }
  }

  lemma {:induction false} SumByCompany(found: seq<Booking>, data: seq<Entry>)
    requires Distinct(data)
    requires forall b :: 0 <= b < |found| ==> Listed(data, found[b].company)
    ensures Sum(data, SumFor(found)) == Sum(found, Amount())
  {
    if found == [] {
      AllZero(data, SumFor([]));
    } else {
      var n := |found| - 1;
      SumByCompany(found[..n], data);
      PointSum(data, found[n].company, found[n].totalAmount);
      Split(data, SumFor(found), SumFor(found[..n]), PointAt(found[n].company, found[n].totalAmount));
    }
  }

  /** The totals shown add up to all the bookings found. */
  lemma TotalsAddUp(found: seq<Booking>, now: int, data: seq<Entry>)
    requires IsReport(found, now, None, data)
    ensures Sum(data, EntryTotal()) == Sum(found, Amount())
  {
    forall b | 0 <= b < |found|
      ensures Listed(data, found[b].company)
    {
      var c := found[b].company;
      var e := Entry(c, Sum(found, TotalOf(c)),
                     Aging(Sum(found, AgedOf(c, now, Days0To30)), Sum(found, AgedOf(c, now, Days31To60)),
                           Sum(found, AgedOf(c, now, Days61To90)), Sum(found, AgedOf(c, now, Over90))));
      assert Has(found, c) && EntryOk(found, now, e);
    }
    SumByCompany(found, data);
    AllZero(data, (e: Entry) => SumFor(found)(e) - EntryTotal()(e));
    Split(data, SumFor(found), EntryTotal(), (e: Entry) => SumFor(found)(e) - EntryTotal()(e));
  }

  // ── The report against the stored debt ───────────────────────────────────────

  predicate IsConfirmedCredit(b: Booking) {
    b.paymentMethod == Credit && b.status == Confirmed
  }

  /** The bookings the query finds. */
  function Found(bookings: seq<Booking>): seq<Booking> {
    if bookings == [] then []
    else
      var n := |bookings| - 1;
      Found(bookings[..n]) + if IsConfirmedCredit(bookings[n]) then [bookings[n]] else []
  }

  /** The query finds each confirmed credit booking, as often as it is stored, and nothing else. */
  lemma {:induction false} FoundExactly(bookings: seq<Booking>, b: Booking)
    ensures multiset(Found(bookings))[b] ==
      if b.paymentMethod == Credit && b.status == Confirmed then multiset(bookings)[b] else 0
  {
    if bookings != [] {
      var n := |bookings| - 1;
      FoundExactly(bookings[..n], b);
      assert bookings == bookings[..n] + [bookings[n]];
    }
  }

  function ConfirmedBy(c: CompanyId): Booking -> int {
    (b: Booking) => if b.company == c && IsConfirmedCredit(b) then b.totalAmount else 0
  }

  lemma {:induction false} FoundSum(bookings: seq<Booking>, c: CompanyId)
    ensures Sum(Found(bookings), TotalOf(c)) == Sum(bookings, ConfirmedBy(c))
  {
    if bookings != [] {
      var n := |bookings| - 1;
      FoundSum(bookings[..n], c);
      Append(Found(bookings[..n]), bookings[n], TotalOf(c));
      assert Found(bookings[..n]) + [] == Found(bookings[..n]);
    }
  }

  /** What the report shows for a company that has a confirmed credit booking. */
  function Shown(w: World, c: CompanyId): int {
    Sum(w.bookings, ConfirmedBy(c))
  }

  lemma EntryShows(w: World, found: seq<Booking>, now: int, e: Entry)
    requires multiset(found) == multiset(Found(w.bookings)) && EntryOk(found, now, e)
    ensures e.total == Shown(w, e.company)
  {
    AnyOrder(found, Found(w.bookings), TotalOf(e.company));
    FoundSum(w.bookings, e.company);
  }

  /** Still owed on the bookings the report counts. */
  function OpenOn(w: World, c: CompanyId): nat -> int {
    (b: nat) =>
      if b < |w.bookings| && w.bookings[b].status == Confirmed && CreditOf(w.bookings[b], c) then
        w.bookings[b].totalAmount - Sum(w.cancels, CreditedOn(b))
      else 0
  }

  function ConfirmedOn(bookings: seq<Booking>, c: CompanyId): nat -> int {
    (b: nat) => if b < |bookings| && bookings[b].status == Confirmed && CreditOf(bookings[b], c) then bookings[b].totalAmount else 0
  }

  /** Still owed on bookings no longer confirmed: retained cancellation fees, among others. */
  function RetainedOn(w: World, c: CompanyId): nat -> int {
    (b: nat) =>
      if b < |w.bookings| && w.bookings[b].status != Confirmed && CreditOf(w.bookings[b], c) then
        w.bookings[b].totalAmount - Sum(w.cancels, CreditedOn(b))
      else 0
  }

  /** Given back on bookings the report still counts in full. */
  function EarlyOn(bookings: seq<Booking>, cancels: seq<Cancel>, c: CompanyId): nat -> int {
    (b: nat) =>
      if b < |bookings| && bookings[b].status == Confirmed && CreditOf(bookings[b], c) then Sum(cancels, CreditedOn(b))
      else 0
  }

  function EarlyRefundOn(w: World, c: CompanyId): nat -> int {
    EarlyOn(w.bookings, w.cancels, c)
  }

  /** In every reachable state, how far the report is from the stored debt. */
  lemma {:induction false} ReportGap(steps: seq<Step>, w: World, c: CompanyId)
    requires Exec(Empty(), steps) == Some(w)
    ensures Outstanding(w, c) - Shown(w, c) ==
      Held(w, c) + StrandedSum(w, c) + SumTo(|w.bookings|, RetainedOn(w, c)) - SumTo(|w.bookings|, EarlyRefundOn(w, c))
  {
    DebtIsOwed(steps, w, c);
    var n := |w.bookings|;
    SumToSplit(n, OwedOn(w, c), RetainedOn(w, c), OpenOn(w, c));
    SumToSplit(n, ConfirmedOn(w.bookings, c), OpenOn(w, c), EarlyRefundOn(w, c));
    SumToSum(w.bookings, ConfirmedBy(c), ConfirmedOn(w.bookings, c));
  }

  // ── When the report is within the debt ───────────────────────────────────────

  predicate NoOverrides(steps: seq<Step>) {
    forall i :: 0 <= i < |steps| ==> !(steps[i].Office? && steps[i].act.OverrideStatus?)
  }

  /** A saved cancellation leaves its booking cancelled. */
  predicate SavedCancelled(w: World) {
    forall k :: 0 <= k < |w.cancels| && w.cancels[k].saved ==>
      w.cancels[k].booking < |w.bookings| && w.bookings[w.cancels[k].booking].status == Cancelled
  }

  lemma SavedStep(w: World, step: Step)
    requires SavedCancelled(w) && CancelsOk(w) && Enabled(w, step)
    requires !(step.Office? && step.act.OverrideStatus?)
    ensures SavedCancelled(Apply(w, step))
  {
    Grows(w, step);
    CancelsMove(w, step);
    if step.CancelStep? {
      assert CancelOk(w.bookings, w.cancels[step.cancel]);
    }
  }

  lemma {:induction false} SavedStaysCancelled(steps: seq<Step>, w: World)
    requires Exec(Empty(), steps) == Some(w) && NoOverrides(steps)
    ensures SavedCancelled(w)
  {
    if steps != [] {
      var v := Before(Empty(), steps);
      SavedStaysCancelled(steps[..|steps| - 1], v);
      Invariant(steps[..|steps| - 1], v, 0);
      SavedStep(v, steps[|steps| - 1]);
    }
  }

  /** Every credit given back belongs to a cancellation whose booking was saved. */
  predicate CreditsSaved(w: World) {
    forall k :: 0 <= k < |w.cancels| && w.cancels[k].credited != 0 ==> w.cancels[k].saved
  }

  predicate CountsStill(bookings: seq<Booking>, x: Cancel, c: CompanyId) {
    x.booking < |bookings| && bookings[x.booking].status == Confirmed && CreditOf(bookings[x.booking], c)
  }

  /** What a cancel request gave back on a booking the report still counts. */
  function EarlyBy(bookings: seq<Booking>, c: CompanyId): Cancel -> int {
    (x: Cancel) => if CountsStill(bookings, x, c) then x.credited else 0
  }

  /** Summed per booking or per request, it is the same. */
  lemma {:induction false} EarlyExchange(bookings: seq<Booking>, cancels: seq<Cancel>, c: CompanyId)
    ensures SumTo(|bookings|, EarlyOn(bookings, cancels, c)) == Sum(cancels, EarlyBy(bookings, c))
  {
    var n := |bookings|;
    if cancels == [] {
      SumToPoint(n, EarlyOn(bookings, [], c), n);
    } else {
      var last := |cancels| - 1;
      var x := cancels[last];
      var point := (b: nat) => if b == x.booking && CountsStill(bookings, x, c) then x.credited else 0;
      EarlyExchange(bookings, cancels[..last], c);
      SumToSplit(n, EarlyOn(bookings, cancels, c), EarlyOn(bookings, cancels[..last], c), point);
      SumToPoint(n, point, x.booking);
    }
  }

  /** In every reachable state, nothing was given back early exactly when every request that gave credit back has a booking no longer confirmed. */
  lemma {:induction false} NoEarlyRefundsExactly(steps: seq<Step>, w: World, c: CompanyId)
    requires Exec(Empty(), steps) == Some(w)
    ensures SumTo(|w.bookings|, EarlyRefundOn(w, c)) == 0
       <==> forall k :: 0 <= k < |w.cancels| && w.cancels[k].credited != 0 ==> !CountsStill(w.bookings, w.cancels[k], c)
  {
    Invariant(steps, w, c);
    forall k | 0 <= k < |w.cancels|
      ensures w.cancels[k].credited >= 0
    {
      assert CancelOk(w.bookings, w.cancels[k]);
    }
    EarlyExchange(w.bookings, w.cancels, c);
    ZeroExactly(w.cancels, EarlyBy(w.bookings, c));
    assert forall k :: 0 <= k < |w.cancels| ==>
      (EarlyBy(w.bookings, c)(w.cancels[k]) == 0 <==> w.cancels[k].credited == 0 || !CountsStill(w.bookings, w.cancels[k], c));
  }

  /**
    In every reachable state, exactly when the report is within the debt: when what was given back on
    bookings it still counts is no more than what is held, stranded or still owed on the others.
  */
  lemma {:induction false} WithinDebtExactly(steps: seq<Step>, w: World, c: CompanyId)
    requires Exec(Empty(), steps) == Some(w)
    ensures Shown(w, c) <= Outstanding(w, c) <==>
      Sum(w.cancels, EarlyBy(w.bookings, c)) <= Held(w, c) + StrandedSum(w, c) + SumTo(|w.bookings|, RetainedOn(w, c))
  {
    ReportGap(steps, w, c);
    EarlyExchange(w.bookings, w.cancels, c);
  }

  /** Without status overrides, credit given back by requests that saved their booking is not counted by the report. */
  lemma {:induction false} NoEarlyRefunds(steps: seq<Step>, w: World, c: CompanyId)
    requires Exec(Empty(), steps) == Some(w) && NoOverrides(steps) && CreditsSaved(w)
    ensures SumTo(|w.bookings|, EarlyRefundOn(w, c)) == 0
  {
    SavedStaysCancelled(steps, w);
    NoEarlyRefundsExactly(steps, w, c);
  }

  /** Then the gap is what is held or stranded plus the fees retained. */
  lemma {:induction false} GapWhenSaved(steps: seq<Step>, w: World, c: CompanyId)
    requires Exec(Empty(), steps) == Some(w) && NoOverrides(steps) && CreditsSaved(w)
    ensures Outstanding(w, c) - Shown(w, c) == Held(w, c) + StrandedSum(w, c) + SumTo(|w.bookings|, RetainedOn(w, c))
  {
    ReportGap(steps, w, c);
    NoEarlyRefunds(steps, w, c);
  }

  lemma RetainedNonNegative(w: World, c: CompanyId)
    requires WellFormed(w) && OnceEach(w)
    ensures SumTo(|w.bookings|, RetainedOn(w, c)) >= 0
  {
    forall b: nat | b < |w.bookings|
      ensures RetainedOn(w, c)(b) >= 0
    {
      if CreditOf(w.bookings[b], c) {
        OwedNonNegative(w, b);
      }
    }
    SumToNonNegative(|w.bookings|, RetainedOn(w, c));
  }

  /**
    With an honest supplier and no status override, if no credit was given back by a request
    that did not get to save its booking, the report never exceeds the debt.
  */
  lemma {:induction false} ReportWithinDebt(steps: seq<Step>, w: World, c: CompanyId)
    requires Exec(Empty(), steps) == Some(w) && HonestRun(steps) && NoOverrides(steps) && CreditsSaved(w)
    ensures Shown(w, c) <= Outstanding(w, c)
  {
    GapWhenSaved(steps, w, c);
    HonestInvariant(steps, w);
    HeldNonNegative(w, c);
    RetainedNonNegative(w, c);
  }
}
