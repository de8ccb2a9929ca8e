/**
 * What the agent and admin dashboards share: the transaction record as the
 * wallet backend returns it, and the two chart aggregates both pages compute
 * over their filtered transactions, volume by type and the last seven days.
 * Timestamps are seconds since the epoch (UTC); a day is `createdAt / 86400`,
 * which is the date part `createdAt.split("T")[0]` of an ISO timestamp.
 */
module Dashboard {
  import opened Common
  import opened Collections

  /** A sender or receiver as the transaction list embeds it. */
  datatype Party = Party(name: string, phone: string)

  /** A transaction; `kind` is the record's `type` field. */
  datatype Transaction = Transaction(
    id: string,
    kind: string,
    amount: int,
    sender: Option<Party>,
    receiver: Option<Party>,
    createdAt: int)

  const SecondsPerDay: nat := 86400

  function KindOf(t: Transaction): string { t.kind }

  function AmountOf(t: Transaction): int { t.amount }

  function DayOf(t: Transaction): int { t.createdAt / SecondsPerDay }

  function Today(now: int): int { now / SecondsPerDay }

  // ---------------------------------------------------------------------
  // transactionVolumeByType
  // ---------------------------------------------------------------------

  /** The total of a record's values, read in the order of its keys. */
  function EntriesTotal(keys: seq<string>, m: map<string, int>): int
    requires forall k :: k in keys ==> k in m
  {
    if keys == [] then 0 else EntriesTotal(keys[..|keys| - 1], m) + m[keys[|keys| - 1]]
  }

  lemma {:induction false} EntriesTotalIsSumOver(keys: seq<string>, m: map<string, int>, txs: seq<Transaction>)
    requires forall k :: k in keys ==> k in m && m[k] == Weight(Group(txs, KindOf, k), AmountOf)
    ensures EntriesTotal(keys, m) == SumOver(keys, txs, KindOf, AmountOf)
  {
    if keys != [] {
      EntriesTotalIsSumOver(keys[..|keys| - 1], m, txs);
    }
  }

  /** `volume` holds, for each type of `s` in first-seen order, the sum of that type's amounts. */
  ghost predicate VolumeInvariant(s: seq<Transaction>, types: seq<string>, volume: map<string, int>)
  {
    && types == DistinctKeys(s, KindOf)
    && (forall k :: k in volume <==> k in types)
    && forall k :: k in volume ==> volume[k] == Weight(Group(s, KindOf, k), AmountOf)
  }

  /** One step of the `reduce`: the invariant for the first `i` transactions gives it for the first `i + 1`. */
  lemma VolumeStep(txs: seq<Transaction>, i: nat, types: seq<string>, volume: map<string, int>)
    requires i < |txs| && VolumeInvariant(txs[..i], types, volume)
    ensures VolumeInvariant(txs[..i + 1],
                            if txs[i].kind in volume then types else types + [txs[i].kind],
                            volume[txs[i].kind := (if txs[i].kind in volume then volume[txs[i].kind] else 0) + txs[i].amount])
  {
    var s, t := txs[..i], txs[i];
    assert txs[..i + 1] == s + [t];
    var types' := if t.kind in volume then types else types + [t.kind];
    assert types' == DistinctKeys(s + [t], KindOf) by {
      assert (s + [t])[..|s + [t]| - 1] == s;
    }
    var volume' := volume[t.kind := (if t.kind in volume then volume[t.kind] else 0) + t.amount];
    forall k | k in volume'
      ensures volume'[k] == Weight(Group(s + [t], KindOf, k), AmountOf)
    {
      GroupSnoc(s, t, KindOf, k, AmountOf);
      if k == t.kind && k !in types {
        GroupOfAbsentKey(s, KindOf, k);
      }
    }
  }

  /**
   * The `reduce` that adds each transaction's amount into `acc[type]`.
   * `types` is the order in which the keys were first assigned (the order
   * `Object.entries` lists them); `volume` maps each type that occurs to
   * the sum of the amounts of that type (`VolumeAddsUp`: and the values add
   * up to the total).
   */
  method VolumeByType(txs: seq<Transaction>) returns (types: seq<string>, volume: map<string, int>)
    ensures types == DistinctKeys(txs, KindOf)
    ensures forall k :: k in volume <==> k in types
    ensures forall k :: k in volume ==> volume[k] == Weight(Group(txs, KindOf, k), AmountOf)
  {
    types, volume := [], map[];
    var i := 0;
    while i < |txs|
      invariant 0 <= i <= |txs|
      invariant VolumeInvariant(txs[..i], types, volume)
    {
      var t := txs[i];
      VolumeStep(txs, i, types, volume);
      if t.kind !in volume {
        types := types + [t.kind];
      }
      var previous := if t.kind in volume then volume[t.kind] else 0;
      volume := volume[t.kind := previous + t.amount];
      i := i + 1;
    }
    assert txs[..|txs|] == txs;
  }

  /** The per-type volumes of the chart add up to the volume of all the transactions. */
  lemma VolumeAddsUp(txs: seq<Transaction>, types: seq<string>, volume: map<string, int>)
    requires VolumeInvariant(txs, types, volume)
    ensures forall k :: k in types ==> k in volume
    ensures EntriesTotal(types, volume) == Weight(txs, AmountOf)
  {
    EntriesTotalIsSumOver(types, volume, txs);
    GroupsPartitionWeight(txs, KindOf, AmountOf);
  }

  // ---------------------------------------------------------------------
  // transactionsOverTime
  // ---------------------------------------------------------------------

  /** One bar of the seven-day chart. */
  datatype DayPoint = DayPoint(day: int, transactions: int, volume: int)

  /** The seven days ending today, oldest first. */
  function LastSevenDays(today: int): (days: seq<int>)
    ensures |days| == 7 && days[6] == today
    ensures forall i :: 0 <= i < 6 ==> days[i + 1] == days[i] + 1
  {
    seq(7, i => today - 6 + i)
  }

  lemma LastSevenDaysDistinct(today: int)
    ensures Distinct(LastSevenDays(today))
  {
  }

  /** Each bucket holds the count and the volume of the transactions of `s` dated on its day. */
  ghost predicate BucketsInvariant(s: seq<Transaction>, counts: map<int, int>, volumes: map<int, int>)
  {
    && (forall d :: d in volumes <==> d in counts)
    && forall d :: d in counts ==>
         counts[d] == |Group(s, DayOf, d)| && volumes[d] == Weight(Group(s, DayOf, d), AmountOf)
  }

  /** `record[day] += delta` when the record has that day, and no change otherwise. */
  function Bump(record: map<int, int>, day: int, delta: int): map<int, int>
  {
    if day in record then record[day := record[day] + delta] else record
  }

  /** One step of the loop over the transactions: a transaction dated on a bucket's day adds to that bucket only. */
  lemma BucketsStep(txs: seq<Transaction>, k: nat, counts: map<int, int>, volumes: map<int, int>)
    requires k < |txs| && BucketsInvariant(txs[..k], counts, volumes)
    ensures BucketsInvariant(txs[..k + 1], Bump(counts, DayOf(txs[k]), 1), Bump(volumes, DayOf(txs[k]), txs[k].amount))
  {
    var s, t := txs[..k], txs[k];
    assert txs[..k + 1] == s + [t];
    forall d | d in counts
      ensures |Group(s + [t], DayOf, d)| == |Group(s, DayOf, d)| + (if DayOf(t) == d then 1 else 0)
      ensures Weight(Group(s + [t], DayOf, d), AmountOf) ==
              Weight(Group(s, DayOf, d), AmountOf) + (if DayOf(t) == d then t.amount else 0)
    {
      GroupSnoc(s, t, DayOf, d, AmountOf);
    }
  }

  /** The "initialize last 7 days" loop: a zero count and a zero volume for each day, oldest day first. */
  method SeedDays(today: int) returns (dates: seq<int>, counts: map<int, int>, volumes: map<int, int>)
    ensures dates == LastSevenDays(today)
    ensures forall d :: d in counts <==> d in dates
    ensures BucketsInvariant([], counts, volumes)
  {
    dates, counts, volumes := [], map[], map[];
    for i := 7 downto 0
      invariant dates == LastSevenDays(today)[..7 - i]
      invariant forall d :: d in counts <==> d in dates
      invariant BucketsInvariant([], counts, volumes)
    {
      var date := today - i;
      dates := dates + [date];
      counts := counts[date := 0];
      volumes := volumes[date := 0];
    }
  }

  /** The "count transactions for each day" loop: each transaction adds to the bucket of its day, if there is one. */
  method CountDays(txs: seq<Transaction>, seeded: map<int, int>, zeros: map<int, int>)
    returns (counts: map<int, int>, volumes: map<int, int>)
    requires BucketsInvariant([], seeded, zeros)
    ensures counts.Keys == seeded.Keys
    ensures BucketsInvariant(txs, counts, volumes)
  {
    counts, volumes := seeded, zeros;
    var k := 0;
    while k < |txs|
      invariant 0 <= k <= |txs|
      invariant counts.Keys == seeded.Keys
      invariant BucketsInvariant(txs[..k], counts, volumes)
    {
      var t := txs[k];
      var date := DayOf(t);
      BucketsStep(txs, k, counts, volumes);
      counts, volumes := Bump(counts, date, 1), Bump(volumes, date, t.amount);
      k := k + 1;
    }
    assert txs[..|txs|] == txs;
  }

  /**
   * Seven zero-initialised buckets for the days ending today; every
   * transaction dated on one of them adds one to that day's count and its
   * amount to that day's volume; other transactions are ignored.
   */
  method TransactionsOverTime(txs: seq<Transaction>, now: int) returns (series: seq<DayPoint>)
    ensures |series| == 7
    ensures forall i :: 0 <= i < 7 ==> series[i].day == LastSevenDays(Today(now))[i]
    ensures forall i :: 0 <= i < 7 ==>
              series[i].transactions == |Group(txs, DayOf, series[i].day)| &&
              series[i].volume == Weight(Group(txs, DayOf, series[i].day), AmountOf)
  {
    var dates, seeded, zeros := SeedDays(Today(now));
    var counts, volumes := CountDays(txs, seeded, zeros);
    series := seq(7, i requires 0 <= i < 7 => DayPoint(dates[i], counts[dates[i]], volumes[dates[i]]));
  }

  /** The total of the chart's counts. */
  function CountsTotal(series: seq<DayPoint>): int
  {
    if series == [] then 0 else CountsTotal(series[..|series| - 1]) + series[|series| - 1].transactions
  }

  lemma {:induction false} CountsTotalIsSumOver(series: seq<DayPoint>, days: seq<int>, txs: seq<Transaction>)
    requires |series| == |days|
    requires forall i :: 0 <= i < |series| ==>
               series[i].day == days[i] && series[i].transactions == |Group(txs, DayOf, days[i])|
    ensures CountsTotal(series) == SumOver(days, txs, DayOf, One)
  {
    if series != [] {
      CountsTotalIsSumOver(series[..|series| - 1], days[..|days| - 1], txs);
      WeightOne(Group(txs, DayOf, days[|days| - 1]));
    }
  }

  /**
   * Transactions dated outside the window are not counted, so the bars'
   * counts never add up to more than the number of transactions.
   */
  lemma SeriesCountsAtMostTransactions(txs: seq<Transaction>, now: int, series: seq<DayPoint>)
    requires |series| == 7
    requires forall i :: 0 <= i < 7 ==>
               series[i].day == LastSevenDays(Today(now))[i] &&
               series[i].transactions == |Group(txs, DayOf, series[i].day)|
    ensures CountsTotal(series) <= |txs|
  {
    var days := LastSevenDays(Today(now));
    CountsTotalIsSumOver(series, days, txs);
    LastSevenDaysDistinct(Today(now));
    SumOverAtMostWeight(days, txs, DayOf, One);
    WeightOne(txs);
  }

  /** A day with no transaction shows count 0 and volume 0 rather than being left out. */
  lemma IdleDayIsZero(txs: seq<Transaction>, day: int)
    requires forall i :: 0 <= i < |txs| ==> DayOf(txs[i]) != day
    ensures |Group(txs, DayOf, day)| == 0
    ensures Weight(Group(txs, DayOf, day), AmountOf) == 0
  {
    FilterKeepsNone(txs, HasKey(DayOf, day));
  }
}
