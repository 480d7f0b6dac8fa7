/**
 * The dashboard's statistics (src/pages/Dashboard.tsx): one pass over the fetched projects that
 * counts them, sums their totals into revenue, paid and pending, and tallies projects per
 * property and service lines per service name; the five most requested services; and the
 * table of draft projects.
 */
module Dashboard {
  import opened Wrappers
  import opened Types
  import opened Lists

  datatype Counter = Counter(count: int, revenue: int)

  /**
   * A JavaScript object used as a dictionary (`Record<string, ...Stats>`): its keys in the
   * order they were first inserted, which is the order `Object.entries` lists them, and the
   * value under each key.
   */
  datatype Tally = Tally(keys: seq<string>, entries: map<string, Counter>)

  ghost predicate WellFormed(t: Tally) {
    (forall i, j :: 0 <= i < j < |t.keys| ==> t.keys[i] != t.keys[j]) &&
    (forall k :: k in t.entries <==> k in t.keys) &&
    (forall k :: k in t.entries ==> t.entries[k].count > 0)
  }

  const EmptyTally := Tally([], map[])

  /** The counter under `k`, an absent key reading as zero. */
  function CounterOf(t: Tally, k: string): Counter {
    if k in t.entries then t.entries[k] else Counter(0, 0)
  }

  /**
   * `if (!stats[key]) stats[key] = { count: 0, revenue: 0 };
   *  stats[key].count++; stats[key].revenue += amount;`
   */
  function Bump(t: Tally, key: string, amount: int): Tally {
    var prev := CounterOf(t, key);
    Tally(if key in t.entries then t.keys else t.keys + [key],
          t.entries[key := Counter(prev.count + 1, prev.revenue + amount)])
  }

  /** The key order after noting `k`: a key already present keeps its place, a new one goes last. */
  function Note(keys: seq<string>, k: string): seq<string> {
    if k in keys then keys else keys + [k]
  }

  /**
   * A bump adds one occurrence and `amount` of revenue under `key`, touches no other key, and
   * keeps the existing keys in their order, a new key going last.
   */
  lemma BumpEffect(t: Tally, key: string, amount: int)
    requires WellFormed(t)
    ensures WellFormed(Bump(t, key, amount))
    ensures Bump(t, key, amount).keys == Note(t.keys, key)
    ensures forall k :: k in Bump(t, key, amount).entries <==> k in t.entries || k == key
    ensures CounterOf(Bump(t, key, amount), key) ==
            Counter(CounterOf(t, key).count + 1, CounterOf(t, key).revenue + amount)
    ensures forall k :: k != key ==> CounterOf(Bump(t, key, amount), k) == CounterOf(t, k)
  {
    var r := Bump(t, key, amount);
    if key !in t.entries {
      assert key !in t.keys;
      forall i, j | 0 <= i < j < |r.keys| ensures r.keys[i] != r.keys[j] {
        if j == |t.keys| {
          assert r.keys[i] == t.keys[i];
        }
      }
    }
  }

  /**
   * `Object.entries(t)`: one pair per key, each pairing a key with the counter stored under it.
   * Of a well-formed dictionary it lists every key exactly once.
   */
  function Entries(t: Tally): (r: seq<(string, Counter)>)
    requires forall i :: 0 <= i < |t.keys| ==> t.keys[i] in t.entries
    ensures |r| == |t.keys|
    ensures forall i :: 0 <= i < |r| ==> r[i].0 == t.keys[i]
    ensures forall i :: 0 <= i < |r| ==> r[i].0 in t.entries && r[i].1 == t.entries[r[i].0]
    ensures WellFormed(t) ==> forall i, j :: 0 <= i < j < |r| ==> r[i].0 != r[j].0
    ensures WellFormed(t) ==> forall k :: k in t.entries ==> exists i :: 0 <= i < |r| && r[i].0 == k
  {
    var r := seq(|t.keys|, i requires 0 <= i < |t.keys| => (t.keys[i], t.entries[t.keys[i]]));
    EntriesCoverKeys(t.keys, r);
    r
  }

  /** A listing whose names follow `keys` position by position names every key. */
  lemma EntriesCoverKeys(keys: seq<string>, r: seq<(string, Counter)>)
    requires |r| == |keys| && forall i :: 0 <= i < |r| ==> r[i].0 == keys[i]
    ensures forall k :: k in keys ==> exists i :: 0 <= i < |r| && r[i].0 == k
  {
    forall k | k in keys ensures exists i :: 0 <= i < |r| && r[i].0 == k {
      var i :| 0 <= i < |keys| && keys[i] == k;
      assert r[i].0 == k;
    }
  }

  /** The sum of `f` over the counters under `keys`. */
  function SumOver(keys: seq<string>, m: map<string, Counter>, f: Counter -> int): int
    requires forall i :: 0 <= i < |keys| ==> keys[i] in m
  {
    if keys == [] then 0 else f(m[keys[0]]) + SumOver(keys[1..], m, f)
  }

  lemma {:induction false} SumOverAppend(keys: seq<string>, m: map<string, Counter>, f: Counter -> int, k: string)
    requires forall i :: 0 <= i < |keys| ==> keys[i] in m
    requires k in m
    ensures SumOver(keys + [k], m, f) == SumOver(keys, m, f) + f(m[k])
  {
    if keys == [] {
      assert [k][1..] == [];
    } else {
      assert (keys + [k])[1..] == keys[1..] + [k];
      SumOverAppend(keys[1..], m, f, k);
    }
  }

  /** Changing the counter under one key changes the sum by the difference, once. */
  lemma {:induction false} SumOverUpdate(keys: seq<string>, m: map<string, Counter>, f: Counter -> int, k: string, c: Counter)
    requires forall i :: 0 <= i < |keys| ==> keys[i] in m
    requires forall i, j :: 0 <= i < j < |keys| ==> keys[i] != keys[j]
    ensures k in keys ==> SumOver(keys, m[k := c], f) == SumOver(keys, m, f) - f(m[k]) + f(c)
    ensures k !in keys ==> SumOver(keys, m[k := c], f) == SumOver(keys, m, f)
  {
    if keys != [] {
      SumOverUpdate(keys[1..], m, f, k, c);
      if keys[0] == k {
        assert k !in keys[1..];
      } else {
        assert k in keys ==> k in keys[1..];
      }
    }
  }

  /** The sum of `f` over the whole dictionary. */
  function TallySum(t: Tally, f: Counter -> int): int
    requires forall i :: 0 <= i < |t.keys| ==> t.keys[i] in t.entries
  {
    SumOver(t.keys, t.entries, f)
  }

  function CountOf(c: Counter): int { c.count }

  function RevenueOf(c: Counter): int { c.revenue }

  /** A bump changes the sum of `f` by the difference between the new and the previous counter. */
  lemma BumpSum(t: Tally, key: string, amount: int, f: Counter -> int)
    requires WellFormed(t)
    ensures forall i :: 0 <= i < |Bump(t, key, amount).keys| ==> Bump(t, key, amount).keys[i] in Bump(t, key, amount).entries
    ensures TallySum(Bump(t, key, amount), f) ==
            TallySum(t, f) - (if key in t.entries then f(t.entries[key]) else 0)
            + f(Counter(CounterOf(t, key).count + 1, CounterOf(t, key).revenue + amount))
  {
    var prev := CounterOf(t, key);
    var c := Counter(prev.count + 1, prev.revenue + amount);
    SumOverUpdate(t.keys, t.entries, f, key, c);
    if key !in t.entries {
      SumOverAppend(t.keys, t.entries[key := c], f, key);
    }
  }

  /** A bump raises the sum of the counts by one and the sum of the revenues by `amount`. */
  lemma BumpSums(t: Tally, key: string, amount: int)
    requires WellFormed(t)
    ensures WellFormed(Bump(t, key, amount))
    ensures TallySum(Bump(t, key, amount), CountOf) == TallySum(t, CountOf) + 1
    ensures TallySum(Bump(t, key, amount), RevenueOf) == TallySum(t, RevenueOf) + amount
  {
    BumpEffect(t, key, amount);
    BumpSum(t, key, amount, CountOf);
    BumpSum(t, key, amount, RevenueOf);
  }

  // ---------------------------------------------------------------- the fold

  datatype Accumulator = Accumulator(
    totalProjects: int, totalRevenue: int, totalPending: int, totalPaid: int,
    propertyStats: Tally, serviceStats: Tally)

  const Start := Accumulator(0, 0, 0, 0, EmptyTally, EmptyTally)

  /** `(project.property as any)?.name || 'Unknown'`: a missing or empty name files under 'Unknown'. */
  function PropertyKey(p: ProjectRow): string {
    if p.propertyName.Some? && p.propertyName.value != "" then p.propertyName.value else "Unknown"
  }

  /** `(project.items as any[])?.forEach`: missing items are no items. */
  function ItemsOf(p: ProjectRow): seq<ItemRow> {
    p.items.GetOr([])
  }

  predicate IsPaid(p: ProjectRow) {
    p.paymentStatus == Some(FullyPaid)
  }

  function ItemRevenue(it: ItemRow): int {
    LineAmount(it.price, it.multiplier)
  }

  /** The inner `forEach`: service lines are tallied by name, other lines are skipped. */
  function TallyServices(t: Tally, items: seq<ItemRow>): Tally {
    if items == [] then t
    else
      var r := TallyServices(t, items[..|items| - 1]);
      var it := items[|items| - 1];
      if it.kind == ServiceItem then Bump(r, it.name, ItemRevenue(it)) else r
  }

  /** The outer `forEach` body for one project. */
  function Visit(a: Accumulator, p: ProjectRow): Accumulator {
    Accumulator(
      a.totalProjects + 1,
      a.totalRevenue + p.total,
      if IsPaid(p) then a.totalPending else a.totalPending + p.total,
      if IsPaid(p) then a.totalPaid + p.total else a.totalPaid,
      Bump(a.propertyStats, PropertyKey(p), p.total),
      TallyServices(a.serviceStats, ItemsOf(p)))
  }

  /** The accumulators after visiting the projects in order. */
  function Accumulate(ps: seq<ProjectRow>): Accumulator {
    if ps == [] then Start else Visit(Accumulate(ps[..|ps| - 1]), ps[|ps| - 1])
  }

  /** The value of the memoised `stats`. */
  datatype Stats = Stats(
    totalProjects: int, totalRevenue: int, totalPending: int, totalPaid: int,
    propertyStats: Tally, serviceStats: Tally, averageProjectValue: real)

  /** `totalProjects > 0 ? totalRevenue / totalProjects : 0`, as an exact quotient. */
  function Average(totalRevenue: int, totalProjects: int): real {
    if totalProjects > 0 then totalRevenue as real / totalProjects as real else 0.0
  }

  function Finish(a: Accumulator): Stats {
    Stats(a.totalProjects, a.totalRevenue, a.totalPending, a.totalPaid,
          a.propertyStats, a.serviceStats, Average(a.totalRevenue, a.totalProjects))
  }

  /** The statistics of the fetched projects (`projects?.forEach`: none fetched is none visited). */
  function StatsOf(projects: Option<seq<ProjectRow>>): Stats {
    Finish(Accumulate(projects.GetOr([])))
  }

  /**
   * One dictionary update, written out the same way for both dictionaries: create a zero entry
   * if the key is missing, then add one to its count and `amount` to its revenue.
   */
  method Record(keys: seq<string>, entries: map<string, Counter>, key: string, amount: int)
    returns (keys': seq<string>, entries': map<string, Counter>)
    ensures Tally(keys', entries') == Bump(Tally(keys, entries), key, amount)
  {
    keys', entries' := keys, entries;
    if key !in entries' {
      keys' := keys' + [key];
      entries' := entries'[key := Counter(0, 0)];
    }
    entries' := entries'[key := entries'[key].(count := entries'[key].count + 1)];
    entries' := entries'[key := entries'[key].(revenue := entries'[key].revenue + amount)];
  }

  /** The inner `forEach` over one project's items. */
  method RecordServices(keys: seq<string>, entries: map<string, Counter>, items: seq<ItemRow>)
    returns (keys': seq<string>, entries': map<string, Counter>)
    ensures Tally(keys', entries') == TallyServices(Tally(keys, entries), items)
  {
    keys', entries' := keys, entries;
    var j := 0;
    while j < |items|
      invariant 0 <= j <= |items|
      invariant Tally(keys', entries') == TallyServices(Tally(keys, entries), items[..j])
    {
      var item := items[j];
      if item.kind == ServiceItem {
        keys', entries' := Record(keys', entries', item.name, item.price * EffectiveMultiplier(item.multiplier));
      }
      assert items[..j + 1][..j] == items[..j];
      j := j + 1;
    }
    assert items[..j] == items;
  }

  /** The `useMemo` body: `let` counters and two dictionaries updated in place, project by project. */
  method ComputeStats(projects: Option<seq<ProjectRow>>) returns (stats: Stats)
    ensures stats == StatsOf(projects)
  {
    var totalProjects, totalRevenue, totalPending, totalPaid := 0, 0, 0, 0;
    var propertyKeys: seq<string>, propertyEntries: map<string, Counter> := [], map[];
    var serviceKeys: seq<string>, serviceEntries: map<string, Counter> := [], map[];
    var ps := projects.GetOr([]);
    var i := 0;
    while i < |ps|
      invariant 0 <= i <= |ps|
      invariant Accumulate(ps[..i]) == Accumulator(totalProjects, totalRevenue, totalPending, totalPaid,
                                                   Tally(propertyKeys, propertyEntries),
                                                   Tally(serviceKeys, serviceEntries))
    {
      var project := ps[i];
      totalProjects := totalProjects + 1;
      totalRevenue := totalRevenue + project.total;
      if project.paymentStatus == Some(FullyPaid) {
        totalPaid := totalPaid + project.total;
      } else {
        totalPending := totalPending + project.total;
      }
      propertyKeys, propertyEntries := Record(propertyKeys, propertyEntries, PropertyKey(project), project.total);
      serviceKeys, serviceEntries := RecordServices(serviceKeys, serviceEntries, ItemsOf(project));
      assert ps[..i + 1][..i] == ps[..i];
      assert Accumulate(ps[..i + 1]) == Visit(Accumulate(ps[..i]), project);
      i := i + 1;
    }
    assert ps[..i] == ps;
    stats := Stats(totalProjects, totalRevenue, totalPending, totalPaid,
                   Tally(propertyKeys, propertyEntries), Tally(serviceKeys, serviceEntries),
                   if totalProjects > 0 then totalRevenue as real / totalProjects as real else 0.0);
  }

  // ---------------------------------------------------------------- what the fold computes

  function ProjectTotal(p: ProjectRow): int { p.total }

  predicate IsUnpaid(p: ProjectRow) { !IsPaid(p) }

  /** The counters agree with independent sums: one per project and every total in the revenue. */
  lemma {:induction false} AccumulateTotals(ps: seq<ProjectRow>)
    ensures Accumulate(ps).totalProjects == |ps|
    ensures Accumulate(ps).totalRevenue == Sum(ps, ProjectTotal)
  {
    if ps != [] {
      var init, last := ps[..|ps| - 1], ps[|ps| - 1];
      assert ps == init + [last];
      AccumulateTotals(init);
      SumConcat(init, [last], ProjectTotal);
    }
  }

  /** `totalPaid` sums the totals of the paid projects. */
  lemma {:induction false} AccumulatePaid(ps: seq<ProjectRow>)
    ensures Accumulate(ps).totalPaid == Sum(Filter(ps, IsPaid), ProjectTotal)
  {
    if ps != [] {
      var init, last := ps[..|ps| - 1], ps[|ps| - 1];
      assert ps == init + [last];
      AccumulatePaid(init);
      FilterConcat(init, [last], IsPaid);
      SumConcat(Filter(init, IsPaid), Filter([last], IsPaid), ProjectTotal);
    }
  }

  /** `totalPending` sums the totals of every project that is not paid. */
  lemma {:induction false} AccumulatePending(ps: seq<ProjectRow>)
    ensures Accumulate(ps).totalPending == Sum(Filter(ps, IsUnpaid), ProjectTotal)
  {
    if ps != [] {
      var init, last := ps[..|ps| - 1], ps[|ps| - 1];
      assert ps == init + [last];
      AccumulatePending(init);
      FilterConcat(init, [last], IsUnpaid);
      SumConcat(Filter(init, IsUnpaid), Filter([last], IsUnpaid), ProjectTotal);
    }
  }

  /** Every total lands in exactly one of `totalPaid` and `totalPending`. */
  lemma PaidPlusPendingIsRevenue(ps: seq<ProjectRow>)
    ensures Accumulate(ps).totalPaid + Accumulate(ps).totalPending == Accumulate(ps).totalRevenue
  {
    AccumulateTotals(ps);
    AccumulatePaid(ps);
    AccumulatePending(ps);
    SumSplitsByFilter(ps, ProjectTotal, IsPaid, IsUnpaid);
  }

  /** The projects filed under property name `k`. */
  function AtProperty(k: string): ProjectRow -> bool {
    (p: ProjectRow) => PropertyKey(p) == k
  }

  function ProjectsAt(ps: seq<ProjectRow>, k: string): seq<ProjectRow> {
    Filter(ps, AtProperty(k))
  }

  lemma {:induction false} PropertyStatsWellFormed(ps: seq<ProjectRow>)
    ensures WellFormed(Accumulate(ps).propertyStats)
  {
    if ps != [] {
      var init, last := ps[..|ps| - 1], ps[|ps| - 1];
      PropertyStatsWellFormed(init);
      BumpEffect(Accumulate(init).propertyStats, PropertyKey(last), last.total);
    }
  }

  /** One project's effect on the counter under `k`. */
  lemma PropertyStatsStep(t: Tally, last: ProjectRow, k: string)
    requires WellFormed(t)
    ensures CounterOf(Bump(t, PropertyKey(last), last.total), k) ==
            Counter(CounterOf(t, k).count + |ProjectsAt([last], k)|,
                    CounterOf(t, k).revenue + Sum(ProjectsAt([last], k), ProjectTotal))
  {
    BumpEffect(t, PropertyKey(last), last.total);
  }

  lemma {:induction false} PropertyStatsAt(ps: seq<ProjectRow>, k: string)
    ensures CounterOf(Accumulate(ps).propertyStats, k) ==
            Counter(|ProjectsAt(ps, k)|, Sum(ProjectsAt(ps, k), ProjectTotal))
  {
    if ps != [] {
      var init, last := ps[..|ps| - 1], ps[|ps| - 1];
      assert ps == init + [last];
      var t := Accumulate(init).propertyStats;
      assert Accumulate(ps).propertyStats == Bump(t, PropertyKey(last), last.total);
      PropertyStatsAt(init, k);
      PropertyStatsWellFormed(init);
      PropertyStatsStep(t, last, k);
      FilterConcat(init, [last], AtProperty(k));
      SumConcat(ProjectsAt(init, k), ProjectsAt([last], k), ProjectTotal);
    }
  }

  /**
   * Under each property name the tally holds the number of projects filed under it and the sum
   * of their totals; a name is a key exactly when some project is filed under it.
   */
  lemma PropertyStatsCounts(ps: seq<ProjectRow>)
    ensures WellFormed(Accumulate(ps).propertyStats)
    ensures forall k :: CounterOf(Accumulate(ps).propertyStats, k) ==
                        Counter(|ProjectsAt(ps, k)|, Sum(ProjectsAt(ps, k), ProjectTotal))
    ensures forall k :: k in Accumulate(ps).propertyStats.entries <==> |ProjectsAt(ps, k)| > 0
  {
    PropertyStatsWellFormed(ps);
    forall k ensures CounterOf(Accumulate(ps).propertyStats, k) ==
                     Counter(|ProjectsAt(ps, k)|, Sum(ProjectsAt(ps, k), ProjectTotal))
    {
      PropertyStatsAt(ps, k);
    }
  }

  /** The per-property counts add up to `totalProjects` and the revenues to `totalRevenue`. */
  lemma {:induction false} PropertyStatsSums(ps: seq<ProjectRow>)
    ensures WellFormed(Accumulate(ps).propertyStats)
    ensures TallySum(Accumulate(ps).propertyStats, CountOf) == Accumulate(ps).totalProjects
    ensures TallySum(Accumulate(ps).propertyStats, RevenueOf) == Accumulate(ps).totalRevenue
  {
    if ps != [] {
      var init, last := ps[..|ps| - 1], ps[|ps| - 1];
      PropertyStatsSums(init);
      BumpSums(Accumulate(init).propertyStats, PropertyKey(last), last.total);
    }
  }

  /** The service lines named `k`. */
  function ServiceNamed(k: string): ItemRow -> bool {
    (it: ItemRow) => it.kind == ServiceItem && it.name == k
  }

  function ServiceLines(items: seq<ItemRow>, k: string): seq<ItemRow> {
    Filter(items, ServiceNamed(k))
  }

  lemma {:induction false} TallyServicesWellFormed(t: Tally, items: seq<ItemRow>)
    requires WellFormed(t)
    ensures WellFormed(TallyServices(t, items))
  {
    if items != [] {
      var init, last := items[..|items| - 1], items[|items| - 1];
      TallyServicesWellFormed(t, init);
      if last.kind == ServiceItem {
        BumpEffect(TallyServices(t, init), last.name, ItemRevenue(last));
      }
    }
  }

  /** One item's effect on the counter under `k`. */
  lemma TallyServicesStep(r: Tally, last: ItemRow, k: string)
    requires WellFormed(r)
    ensures CounterOf(TallyServices(r, [last]), k) ==
            Counter(CounterOf(r, k).count + |ServiceLines([last], k)|,
                    CounterOf(r, k).revenue + Sum(ServiceLines([last], k), ItemRevenue))
  {
    assert [last][..0] == [];
    if last.kind == ServiceItem {
      BumpEffect(r, last.name, ItemRevenue(last));
    }
  }

  /** Tallying more items continues from the tally of the first ones. */
  lemma TallyServicesAppend(t: Tally, init: seq<ItemRow>, last: ItemRow)
    ensures TallyServices(t, init + [last]) == TallyServices(TallyServices(t, init), [last])
  {
    assert (init + [last])[..|init|] == init;
    assert [last][..0] == [];
  }

  /** Tallying a project's items adds, under `k`, its service lines named `k` and their amounts. */
  lemma {:induction false} TallyServicesAt(t: Tally, items: seq<ItemRow>, k: string)
    requires WellFormed(t)
    ensures CounterOf(TallyServices(t, items), k) ==
            Counter(CounterOf(t, k).count + |ServiceLines(items, k)|,
                    CounterOf(t, k).revenue + Sum(ServiceLines(items, k), ItemRevenue))
  {
    if items != [] {
      var init, last := items[..|items| - 1], items[|items| - 1];
      assert items == init + [last];
      TallyServicesAt(t, init, k);
      TallyServicesWellFormed(t, init);
      TallyServicesAppend(t, init, last);
      TallyServicesStep(TallyServices(t, init), last, k);
      FilterConcat(init, [last], ServiceNamed(k));
      SumConcat(ServiceLines(init, k), ServiceLines([last], k), ItemRevenue);
    }
  }

  /** How many service lines named `k` a project has, and what they amount to. */
  function LinesNamed(k: string): ProjectRow -> int {
    (p: ProjectRow) => |ServiceLines(ItemsOf(p), k)|
  }

  function AmountNamed(k: string): ProjectRow -> int {
    (p: ProjectRow) => Sum(ServiceLines(ItemsOf(p), k), ItemRevenue)
  }

  lemma {:induction false} ServiceStatsWellFormed(ps: seq<ProjectRow>)
    ensures WellFormed(Accumulate(ps).serviceStats)
  {
    if ps != [] {
      var init, last := ps[..|ps| - 1], ps[|ps| - 1];
      ServiceStatsWellFormed(init);
      TallyServicesWellFormed(Accumulate(init).serviceStats, ItemsOf(last));
    }
  }

  lemma {:induction false} ServiceStatsAt(ps: seq<ProjectRow>, k: string)
    ensures CounterOf(Accumulate(ps).serviceStats, k) == Counter(Sum(ps, LinesNamed(k)), Sum(ps, AmountNamed(k)))
  {
    if ps != [] {
      var init, last := ps[..|ps| - 1], ps[|ps| - 1];
      assert ps == init + [last];
      ServiceStatsAt(init, k);
      ServiceStatsWellFormed(init);
      TallyServicesAt(Accumulate(init).serviceStats, ItemsOf(last), k);
      SumConcat(init, [last], LinesNamed(k));
      SumConcat(init, [last], AmountNamed(k));
    }
  }

  /**
   * Under each service name the tally holds the number of service lines of that name across all
   * projects and the sum of price times effective multiplier over them; lines of other kinds never
   * count, and a name is a key exactly when at least one such line exists.
   */
  lemma ServiceStatsCounts(ps: seq<ProjectRow>)
    ensures WellFormed(Accumulate(ps).serviceStats)
    ensures forall k :: CounterOf(Accumulate(ps).serviceStats, k) ==
                        Counter(Sum(ps, LinesNamed(k)), Sum(ps, AmountNamed(k)))
    ensures forall k :: k in Accumulate(ps).serviceStats.entries <==> Sum(ps, LinesNamed(k)) > 0
  {
    ServiceStatsWellFormed(ps);
    forall k ensures CounterOf(Accumulate(ps).serviceStats, k) == Counter(Sum(ps, LinesNamed(k)), Sum(ps, AmountNamed(k))) {
      ServiceStatsAt(ps, k);
    }
  }

  /**
   * The memoised statistics: one project counted per project, revenue the sum of the totals,
   * paid and pending splitting it.
   */
  lemma StatsTotals(projects: Option<seq<ProjectRow>>)
    ensures StatsOf(projects).totalProjects == |projects.GetOr([])|
    ensures StatsOf(projects).totalRevenue == Sum(projects.GetOr([]), ProjectTotal)
    ensures StatsOf(projects).totalPaid + StatsOf(projects).totalPending == StatsOf(projects).totalRevenue
  {
    var ps := projects.GetOr([]);
    AccumulateTotals(ps);
    PaidPlusPendingIsRevenue(ps);
  }

  /** The average is zero for no projects and otherwise the revenue divided by the number of projects. */
  lemma StatsAverage(projects: Option<seq<ProjectRow>>)
    ensures projects.GetOr([]) == [] ==> StatsOf(projects).averageProjectValue == 0.0
    ensures projects.GetOr([]) != [] ==>
              StatsOf(projects).averageProjectValue ==
              StatsOf(projects).totalRevenue as real / |projects.GetOr([])| as real
  {
    var ps := projects.GetOr([]);
    var a := Accumulate(ps);
    assert StatsOf(projects) == Finish(a);
    AccumulateTotals(ps);
  }

  /** The unused `calculateStats`: every counter zero and both dictionaries empty. */
  function CalculateStats(): (r: Stats)
    ensures r == StatsOf(None) && r == StatsOf(Some([]))
    ensures r.totalProjects == 0 && r.totalRevenue == 0 && r.totalPending == 0 && r.totalPaid == 0
    ensures r.propertyStats.keys == [] && r.serviceStats.keys == [] && r.averageProjectValue == 0.0
  {
    Stats(0, 0, 0, 0, EmptyTally, EmptyTally, 0.0)
  }

  // ---------------------------------------------------------------- key order

  /** The keys after noting each of `s` in turn. */
  function NoteAll(keys: seq<string>, s: seq<string>): seq<string> {
    if s == [] then keys else Note(NoteAll(keys, s[..|s| - 1]), s[|s| - 1])
  }

  /** The distinct values of `s` in the order of their first occurrence. */
  function FirstOccurrences(s: seq<string>): seq<string> {
    NoteAll([], s)
  }

  /**
   * Noting keeps the keys distinct, keeps the earlier keys where they were, and adds exactly
   * the values noted.
   */
  lemma {:induction false} NoteAllSpec(keys: seq<string>, s: seq<string>)
    requires forall i, j :: 0 <= i < j < |keys| ==> keys[i] != keys[j]
    ensures forall i, j :: 0 <= i < j < |NoteAll(keys, s)| ==> NoteAll(keys, s)[i] != NoteAll(keys, s)[j]
    ensures |keys| <= |NoteAll(keys, s)| && NoteAll(keys, s)[..|keys|] == keys
    ensures forall x :: x in NoteAll(keys, s) <==> x in keys || x in s
  {
    if s != [] {
      var init, last := s[..|s| - 1], s[|s| - 1];
      NoteAllSpec(keys, init);
      var r := NoteAll(keys, init);
      assert s == init + [last];
      if last !in r {
        forall i, j | 0 <= i < j < |r| + 1 ensures (r + [last])[i] != (r + [last])[j] {
          if j == |r| {
            assert (r + [last])[i] == r[i];
          }
        }
        assert (r + [last])[..|keys|] == r[..|keys|];
      }
    }
  }

  lemma {:induction false} NoteAllConcat(keys: seq<string>, a: seq<string>, b: seq<string>)
    ensures NoteAll(keys, a + b) == NoteAll(NoteAll(keys, a), b)
  {
    if b == [] {
      assert a + b == a;
    } else {
      assert (a + b)[..|a + b| - 1] == a + b[..|b| - 1];
      assert (a + b)[|a + b| - 1] == b[|b| - 1];
      NoteAllConcat(keys, a, b[..|b| - 1]);
    }
  }

  /** The property names of the projects, in order. */
  function PropertyKeys(ps: seq<ProjectRow>): seq<string> {
    if ps == [] then [] else PropertyKeys(ps[..|ps| - 1]) + [PropertyKey(ps[|ps| - 1])]
  }

  /**
   * `Object.entries(propertyStats)`, the rows of the property table, lists the property names in
   * the order in which they first occur among the projects.
   */
  lemma {:induction false} PropertyKeyOrder(ps: seq<ProjectRow>)
    ensures Accumulate(ps).propertyStats.keys == FirstOccurrences(PropertyKeys(ps))
  {
    if ps != [] {
      var init, last := ps[..|ps| - 1], ps[|ps| - 1];
      PropertyKeyOrder(init);
      PropertyStatsWellFormed(init);
      BumpEffect(Accumulate(init).propertyStats, PropertyKey(last), last.total);
      var ks := PropertyKeys(ps);
      assert ks[..|ks| - 1] == PropertyKeys(init);
    }
  }

  /** The names of the service lines among `items`, in order. */
  function ServiceLineNames(items: seq<ItemRow>): seq<string> {
    if items == [] then []
    else
      var it := items[|items| - 1];
      ServiceLineNames(items[..|items| - 1]) + (if it.kind == ServiceItem then [it.name] else [])
  }

  lemma {:induction false} TallyServicesKeys(t: Tally, items: seq<ItemRow>)
    requires WellFormed(t)
    ensures TallyServices(t, items).keys == NoteAll(t.keys, ServiceLineNames(items))
  {
    if items != [] {
      var init, it := items[..|items| - 1], items[|items| - 1];
      TallyServicesKeys(t, init);
      TallyServicesWellFormed(t, init);
      var names := ServiceLineNames(items);
      if it.kind == ServiceItem {
        BumpEffect(TallyServices(t, init), it.name, ItemRevenue(it));
        assert names[..|names| - 1] == ServiceLineNames(init);
      } else {
        assert names == ServiceLineNames(init);
      }
    }
  }

  /** The names of the service lines of all projects, project by project. */
  function ServiceNames(ps: seq<ProjectRow>): seq<string> {
    if ps == [] then [] else ServiceNames(ps[..|ps| - 1]) + ServiceLineNames(ItemsOf(ps[|ps| - 1]))
  }

  /**
   * `Object.entries(serviceStats)`, before sorting, lists the service names in the order in
   * which they first occur among the service lines; that order settles ties in the top five.
   */
  lemma {:induction false} ServiceKeyOrder(ps: seq<ProjectRow>)
    ensures Accumulate(ps).serviceStats.keys == FirstOccurrences(ServiceNames(ps))
  {
    if ps != [] {
      var init, last := ps[..|ps| - 1], ps[|ps| - 1];
      ServiceKeyOrder(init);
      ServiceStatsWellFormed(init);
      TallyServicesKeys(Accumulate(init).serviceStats, ItemsOf(last));
      NoteAllConcat([], ServiceNames(init), ServiceLineNames(ItemsOf(last)));
    }
  }

  // ---------------------------------------------------------------- the most requested services

  type Entry = (string, Counter)

  predicate NonIncreasing(s: seq<Entry>) {
    forall i, j :: 0 <= i < j < |s| ==> s[i].1.count >= s[j].1.count
  }

  /** Places `x` before the first entry whose count it reaches, so equal counts keep their order. */
  function InsertByCount(x: Entry, sorted: seq<Entry>): (r: seq<Entry>)
    ensures |r| == |sorted| + 1
    ensures multiset(r) == multiset(sorted) + multiset{x}
  {
    if sorted == [] || sorted[0].1.count <= x.1.count then [x] + sorted
    else
      assert sorted == [sorted[0]] + sorted[1..];
      [sorted[0]] + InsertByCount(x, sorted[1..])
  }

  lemma {:induction false} InsertByCountSorted(x: Entry, sorted: seq<Entry>)
    requires NonIncreasing(sorted)
    ensures NonIncreasing(InsertByCount(x, sorted))
    ensures InsertByCount(x, sorted)[0] == x || InsertByCount(x, sorted)[0] == sorted[0]
  {
    var r := InsertByCount(x, sorted);
    if sorted == [] || sorted[0].1.count <= x.1.count {
      forall i, j | 0 <= i < j < |r| ensures r[i].1.count >= r[j].1.count {
        if i == 0 {
          assert r[j] == sorted[j - 1];
        } else {
          assert r[i] == sorted[i - 1] && r[j] == sorted[j - 1];
        }
      }
    } else {
      var rest := InsertByCount(x, sorted[1..]);
      InsertByCountSorted(x, sorted[1..]);
      assert r == [sorted[0]] + rest;
      forall i, j | 0 <= i < j < |r| ensures r[i].1.count >= r[j].1.count {
        assert r[j] == rest[j - 1];
        if i == 0 {
          assert rest[0].1.count >= rest[j - 1].1.count;
        } else {
          assert r[i] == rest[i - 1];
        }
      }
    }
  }

  /** `.sort((a, b) => b[1].count - a[1].count)`: a stable sort by decreasing count. */
  function SortByCount(s: seq<Entry>): (r: seq<Entry>)
    ensures |r| == |s|
    ensures multiset(r) == multiset(s)
    ensures NonIncreasing(r)
  {
    if s == [] then []
    else
      assert s == [s[0]] + s[1..];
      InsertByCountSorted(s[0], SortByCount(s[1..]));
      InsertByCount(s[0], SortByCount(s[1..]))
  }

  /** `Object.entries(serviceStats).sort(...).slice(0, 5)`. */
  function TopServices(t: Tally): seq<Entry>
    requires forall i :: 0 <= i < |t.keys| ==> t.keys[i] in t.entries
  {
    var sorted := SortByCount(Entries(t));
    sorted[..if |sorted| < 5 then |sorted| else 5]
  }

  /**
   * The table shows five entries, or every entry when there are fewer; in order of non-increasing
   * count; each one an entry of the dictionary; and no entry left out outnumbers one shown.
   */
  lemma TopServicesSpec(t: Tally)
    requires forall i :: 0 <= i < |t.keys| ==> t.keys[i] in t.entries
    ensures |TopServices(t)| == if |t.keys| < 5 then |t.keys| else 5
    ensures NonIncreasing(TopServices(t))
    ensures multiset(TopServices(t)) <= multiset(Entries(t))
    ensures forall e, i :: e in Entries(t) && e !in TopServices(t) && 0 <= i < |TopServices(t)| ==>
                           TopServices(t)[i].1.count >= e.1.count
  {
    var entries := Entries(t);
    var sorted := SortByCount(entries);
    var n := if |sorted| < 5 then |sorted| else 5;
    assert TopServices(t) == sorted[..n];
    PrefixOfSorted(sorted, n);
    SameElements(entries, sorted);
  }

  /** Of a well-formed dictionary, the top-five table never lists a service twice. */
  lemma TopServicesDistinct(t: Tally)
    requires WellFormed(t)
    ensures forall i, j :: 0 <= i < j < |TopServices(t)| ==> TopServices(t)[i].0 != TopServices(t)[j].0
  {
    TopServicesSpec(t);
    DistinctNamesKept(TopServices(t), Entries(t));
  }

  /** Part of a listing with pairwise distinct names has pairwise distinct names. */
  lemma DistinctNamesKept(a: seq<Entry>, b: seq<Entry>)
    requires multiset(a) <= multiset(b)
    requires forall i, j :: 0 <= i < j < |b| ==> b[i].0 != b[j].0
    ensures forall i, j :: 0 <= i < j < |a| ==> a[i].0 != a[j].0
  {
    NoRepeats(b);
    forall i, j | 0 <= i < j < |a| ensures a[i].0 != a[j].0 {
      if a[i].0 == a[j].0 {
        assert a[i] in multiset(a) && a[j] in multiset(a);
        var x :| 0 <= x < |b| && b[x] == a[i];
        var y :| 0 <= y < |b| && b[y] == a[j];
        assert x == y;
        Repeats(a, i, j);
        assert false;
      }
    }
  }

  /** A sequence whose entries have pairwise distinct names holds each entry at most once. */
  lemma {:induction false} NoRepeats(s: seq<Entry>)
    requires forall i, j :: 0 <= i < j < |s| ==> s[i].0 != s[j].0
    ensures forall e :: multiset(s)[e] <= 1
  {
    if s != [] {
      NoRepeats(s[1..]);
      assert s == [s[0]] + s[1..];
      assert s[0] !in s[1..];
    }
  }

  /** An entry at two positions is held at least twice. */
  lemma Repeats(s: seq<Entry>, i: nat, j: nat)
    requires i < j < |s| && s[i] == s[j]
    ensures multiset(s)[s[i]] >= 2
  {
    assert s == s[..j] + s[j..];
    assert s[i] in s[..j];
    assert s[j] == s[j..][0];
  }

  lemma SameElements(a: seq<Entry>, b: seq<Entry>)
    requires multiset(a) == multiset(b)
    ensures forall e :: e in a ==> e in b
  {
    forall e | e in a ensures e in b {
      assert e in multiset(a);
    }
  }

  /** A prefix of a sorted sequence is sorted, part of it, and reaches every entry after it. */
  lemma PrefixOfSorted(s: seq<Entry>, n: nat)
    requires NonIncreasing(s) && n <= |s|
    ensures NonIncreasing(s[..n])
    ensures multiset(s[..n]) <= multiset(s)
    ensures forall e, i :: e in s && e !in s[..n] && 0 <= i < n ==> s[i].1.count >= e.1.count
  {
    assert s == s[..n] + s[n..];
    forall e, i | e in s && e !in s[..n] && 0 <= i < n ensures s[i].1.count >= e.1.count {
      var j :| 0 <= j < |s| && s[j] == e;
      assert j >= n;
    }
  }

  // ---------------------------------------------------------------- drafts

  predicate IsDraft(p: ProjectRow) { p.status == Draft }

  /** `projects?.filter(p => p.status === 'draft')`: nothing fetched lists nothing. */
  function Drafts(projects: Option<seq<ProjectRow>>): seq<ProjectRow> {
    Filter(projects.GetOr([]), IsDraft)
  }

  /** `projects?.some(p => p.status === 'draft')`: whether the drafts section is rendered. */
  function ShowsDrafts(projects: Option<seq<ProjectRow>>): bool {
    Any(projects.GetOr([]), IsDraft)
  }

  /**
   * The drafts table lists exactly the draft projects, in their order, and the section is shown
   * exactly when that list is not empty.
   */
  lemma DraftsSpec(projects: Option<seq<ProjectRow>>)
    ensures ShowsDrafts(projects) <==> Drafts(projects) != []
    ensures forall i :: 0 <= i < |Drafts(projects)| ==> Drafts(projects)[i] in projects.GetOr([]) && Drafts(projects)[i].status == Draft
    ensures forall i :: 0 <= i < |projects.GetOr([])| && projects.GetOr([])[i].status == Draft ==> projects.GetOr([])[i] in Drafts(projects)
    ensures forall a, b :: projects == Some(a + b) ==> Drafts(projects) == Drafts(Some(a)) + Drafts(Some(b))
  {
    AnyIffFilterNonEmpty(projects.GetOr([]), IsDraft);
    forall a, b | projects == Some(a + b) ensures Drafts(projects) == Drafts(Some(a)) + Drafts(Some(b)) {
      FilterConcat(a, b, IsDraft);
    }
  }
}
