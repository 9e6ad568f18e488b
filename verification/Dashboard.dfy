/** The statistics of the second dashboard: one pass over the alarm rows of a range fills counters
    and maps, from which distributions, rates, a ranking and a zero-filled trend are read off. Times
    are seconds in a zone with a fixed offset; reals stand for floats. */
module Dashboard {
  import opened Text
  import UsageLedger

  datatype Review = Pending | Valid | Invalid | Other

  // A row as the query returns it.
  datatype RawRow = RawRow(device: string, algorithm: string, area: string, status: string, severity: int, at: int)

  // A row with trimmed ids and its status read.
  datatype Row = Row(device: string, algorithm: string, area: string, review: Review, severity: int, at: int)

  datatype Unit = Hour | Day

  datatype Agg = Agg(alarms: nat, pending: nat, valid: nat, invalid: nat)

  function ReviewOf(raw: string): Review {
    var s := Lower(TrimSpace(raw));
    if s == "pending" then Pending else if s == "valid" then Valid else if s == "invalid" then Invalid else Other
  }

  function RowOf(r: RawRow): Row {
    Row(TrimSpace(r.device), TrimSpace(r.algorithm), TrimSpace(r.area), ReviewOf(r.status), r.severity, r.at)
  }

  function AreaKey(r: Row): string { if r.area == "" then "__unassigned__" else r.area }
  function TypeKey(r: Row): string { if r.algorithm == "" then "__unknown__" else r.algorithm }
  function AlgorithmKey(r: Row): string { r.algorithm }
  function DeviceKey(r: Row): string { r.device }

  function Truncate(t: int, unit: Unit, offset: int): int {
    if unit == Hour then UsageLedger.HourBucket(t, offset) else UsageLedger.DayBucket(t, offset)
  }

  function BucketKey(unit: Unit, offset: int): Row -> int { (r: Row) => Truncate(r.at, unit, offset) }

  function Any(r: Row): bool { true }
  function IsPending(r: Row): bool { r.review == Pending }
  function IsValid(r: Row): bool { r.review == Valid }
  function IsInvalid(r: Row): bool { r.review == Invalid }
  function IsAccurate(r: Row): bool { r.review == Valid || r.review == Pending }
  function IsHigh(r: Row): bool { r.severity <= 1 }
  function IsMedium(r: Row): bool { r.severity == 2 }
  function IsLow(r: Row): bool { r.severity > 2 }

  // --- Counting ---

  function Count(rows: seq<Row>, p: Row -> bool): nat {
    if rows == [] then 0 else Count(rows[..|rows| - 1], p) + if p(rows[|rows| - 1]) then 1 else 0
  }

  function CountKey<K(==)>(rows: seq<Row>, key: Row -> K, p: Row -> bool, k: K): nat {
    if rows == [] then 0
    else CountKey(rows[..|rows| - 1], key, p, k) + if p(rows[|rows| - 1]) && key(rows[|rows| - 1]) == k then 1 else 0
  }

  function SumKeys<K(==)>(keys: seq<K>, rows: seq<Row>, key: Row -> K, p: Row -> bool): nat {
    if keys == [] then 0 else SumKeys(keys[..|keys| - 1], rows, key, p) + CountKey(rows, key, p, keys[|keys| - 1])
  }

  predicate Distinct<K(==)>(keys: seq<K>) {
    forall i, j | 0 <= i < j < |keys| :: keys[i] != keys[j]
  }

  predicate Covers<K(==)>(keys: seq<K>, rows: seq<Row>, key: Row -> K) {
    forall i | 0 <= i < |rows| :: key(rows[i]) in keys
  }

  lemma {:induction false} SumSnoc<K>(keys: seq<K>, rows: seq<Row>, key: Row -> K, p: Row -> bool)
    requires Distinct(keys) && rows != []
    ensures var last := rows[|rows| - 1];
      SumKeys(keys, rows, key, p) == SumKeys(keys, rows[..|rows| - 1], key, p) + if p(last) && key(last) in keys then 1 else 0
  {
    if keys != [] {
      var init := keys[..|keys| - 1];
      SumSnoc(init, rows, key, p);
      assert keys == init + [keys[|keys| - 1]];
    }
  }

  lemma {:induction false} SumNoRows<K>(keys: seq<K>, key: Row -> K, p: Row -> bool)
    ensures SumKeys(keys, [], key, p) == 0
  {
    if keys != [] { SumNoRows(keys[..|keys| - 1], key, p); }
  }

  /** Conservation: over distinct keys that cover all rows the counts per key add up to the whole. */
  lemma {:induction false} Conservation<K>(keys: seq<K>, rows: seq<Row>, key: Row -> K, p: Row -> bool)
    requires Distinct(keys) && Covers(keys, rows, key)
    ensures SumKeys(keys, rows, key, p) == Count(rows, p)
  {
    if rows == [] {
      SumNoRows(keys, key, p);
    } else {
      var init := rows[..|rows| - 1];
      assert Covers(keys, init, key) by { assert forall i | 0 <= i < |init| :: init[i] == rows[i]; }
      Conservation(keys, init, key, p);
      SumSnoc(keys, rows, key, p);
    }
  }

  lemma {:induction false} CountAny(rows: seq<Row>)
    ensures Count(rows, Any) == |rows|
  {
    if rows != [] { CountAny(rows[..|rows| - 1]); }
  }

  lemma {:induction false} CountSplit(rows: seq<Row>)
    ensures Count(rows, IsHigh) + Count(rows, IsMedium) + Count(rows, IsLow) == |rows|
    ensures Count(rows, IsAccurate) == Count(rows, IsValid) + Count(rows, IsPending)
    ensures Count(rows, IsValid) + Count(rows, IsPending) + Count(rows, IsInvalid) <= |rows|
  {
    if rows != [] { CountSplit(rows[..|rows| - 1]); }
  }

  lemma {:induction false} CountKeySplit<K>(rows: seq<Row>, key: Row -> K, k: K)
    ensures CountKey(rows, key, IsAccurate, k) == CountKey(rows, key, IsValid, k) + CountKey(rows, key, IsPending, k)
    ensures CountKey(rows, key, IsAccurate, k) <= CountKey(rows, key, Any, k)
  {
    if rows != [] { CountKeySplit(rows[..|rows| - 1], key, k); }
  }

  // --- The pass over the rows ---

  function At<K>(m: map<K, nat>, k: K): nat { if k in m then m[k] else 0 }

  const NONE := Agg(0, 0, 0, 0)

  function AggAt(m: map<string, Agg>, k: string): Agg { if k in m then m[k] else NONE }

  function Added(a: Agg, r: Row): Agg {
    Agg(a.alarms + 1, a.pending + (if IsPending(r) then 1 else 0), a.valid + (if IsValid(r) then 1 else 0),
        a.invalid + if IsInvalid(r) then 1 else 0)
  }

  function AggOf(rows: seq<Row>, k: string): Agg {
    Agg(CountKey(rows, AlgorithmKey, Any, k), CountKey(rows, AlgorithmKey, IsPending, k),
        CountKey(rows, AlgorithmKey, IsValid, k), CountKey(rows, AlgorithmKey, IsInvalid, k))
  }

  // The table holds the counts per key, and exactly the keys that occur.
  ghost predicate Tabulates<K(!new)>(m: map<K, nat>, rows: seq<Row>, key: Row -> K) {
    && (forall k :: At(m, k) == CountKey(rows, key, Any, k))
    && (forall k :: k in m <==> exists i :: 0 <= i < |rows| && key(rows[i]) == k)
  }

  ghost predicate Aggregates(m: map<string, Agg>, rows: seq<Row>) {
    && (forall k :: AggAt(m, k) == AggOf(rows, k))
    && (forall k :: k in m <==> exists i :: 0 <= i < |rows| && rows[i].algorithm == k)
  }

  datatype Counters = Counters(pending: nat, valid: nat, invalid: nat, high: nat, medium: nat, low: nat)

  function CountersOf(rows: seq<Row>): Counters {
    Counters(Count(rows, IsPending), Count(rows, IsValid), Count(rows, IsInvalid),
             Count(rows, IsHigh), Count(rows, IsMedium), Count(rows, IsLow))
  }

  lemma CountKeySnoc<K>(rows: seq<Row>, r: Row, key: Row -> K, p: Row -> bool, k: K)
    ensures CountKey(rows + [r], key, p, k) == CountKey(rows, key, p, k) + if p(r) && key(r) == k then 1 else 0
  {}

  lemma TabulatesSnoc<K(!new)>(m: map<K, nat>, rows: seq<Row>, r: Row, key: Row -> K)
    requires Tabulates(m, rows, key)
    ensures Tabulates(m[key(r) := At(m, key(r)) + 1], rows + [r], key)
  {
    var after, all := m[key(r) := At(m, key(r)) + 1], rows + [r];
    forall k ensures At(after, k) == CountKey(all, key, Any, k) {
      CountKeySnoc(rows, r, key, Any, k);
      assert At(m, k) == CountKey(rows, key, Any, k);
    }
    forall k ensures k in after <==> exists i :: 0 <= i < |all| && key(all[i]) == k {
      if k in m {
        var i :| 0 <= i < |rows| && key(rows[i]) == k;
        assert key(all[i]) == k;
      }
      if k == key(r) { assert key(all[|rows|]) == k; }
    }
  }

  lemma AggregatesSnoc(m: map<string, Agg>, rows: seq<Row>, r: Row)
    requires Aggregates(m, rows)
    ensures Aggregates(m[r.algorithm := Added(AggAt(m, r.algorithm), r)], rows + [r])
  {
    var after, all := m[r.algorithm := Added(AggAt(m, r.algorithm), r)], rows + [r];
    forall k ensures AggAt(after, k) == AggOf(all, k) {
      CountKeySnoc(rows, r, AlgorithmKey, Any, k);
      CountKeySnoc(rows, r, AlgorithmKey, IsPending, k);
      CountKeySnoc(rows, r, AlgorithmKey, IsValid, k);
      CountKeySnoc(rows, r, AlgorithmKey, IsInvalid, k);
      assert AggAt(m, k) == AggOf(rows, k);
    }
    forall k ensures k in after <==> exists i :: 0 <= i < |all| && all[i].algorithm == k {
      if k in m {
        var i :| 0 <= i < |rows| && rows[i].algorithm == k;
        assert all[i].algorithm == k;
      }
      if k == r.algorithm { assert all[|rows|].algorithm == k; }
    }
  }

  datatype Tables = Tables(counters: Counters, algorithms: map<string, Agg>, devices: map<string, nat>, areas: map<string, nat>,
                           types: map<string, nat>, trend: map<int, nat>)

  // Every table counts the rows, each under its own key.
  ghost predicate Summarises(t: Tables, rows: seq<Row>, unit: Unit, offset: int) {
    && t.counters == CountersOf(rows) && Aggregates(t.algorithms, rows) && Tabulates(t.devices, rows, DeviceKey)
    && Tabulates(t.areas, rows, AreaKey) && Tabulates(t.types, rows, TypeKey) && Tabulates(t.trend, rows, BucketKey(unit, offset))
  }

  lemma NothingSummarised(unit: Unit, offset: int)
    ensures Summarises(Tables(Counters(0, 0, 0, 0, 0, 0), map[], map[], map[], map[], map[]), [], unit, offset)
  {}

  method AddRow(t: Tables, r: Row, unit: Unit, offset: int, ghost rows: seq<Row>) returns (u: Tables)
    requires Summarises(t, rows, unit, offset)
    ensures Summarises(u, rows + [r], unit, offset)
  {
    hide Tabulates, Aggregates, CountersOf;
    AggregatesSnoc(t.algorithms, rows, r);
    TabulatesSnoc(t.devices, rows, r, DeviceKey);
    TabulatesSnoc(t.areas, rows, r, AreaKey);
    TabulatesSnoc(t.types, rows, r, TypeKey);
    TabulatesSnoc(t.trend, rows, r, BucketKey(unit, offset));
    var counters := CountRow(t.counters, r, rows);
    var bucket := Truncate(r.at, unit, offset);
    u := Tables(counters, t.algorithms[r.algorithm := Added(AggAt(t.algorithms, r.algorithm), r)],
                t.devices[r.device := At(t.devices, r.device) + 1], t.areas[AreaKey(r) := At(t.areas, AreaKey(r)) + 1],
                t.types[TypeKey(r) := At(t.types, TypeKey(r)) + 1], t.trend[bucket := At(t.trend, bucket) + 1]);
  }

  method Accumulate(rows: seq<Row>, unit: Unit, offset: int) returns (t: Tables)
    ensures Summarises(t, rows, unit, offset)
  {
    hide Summarises;
    t := Tables(Counters(0, 0, 0, 0, 0, 0), map[], map[], map[], map[], map[]);
    NothingSummarised(unit, offset);
    assert rows[..0] == [];
    for i := 0 to |rows|
      invariant Summarises(t, rows[..i], unit, offset)
    {
      assert rows[..i + 1] == rows[..i] + [rows[i]];
      t := AddRow(t, rows[i], unit, offset, rows[..i]);
    }
    assert rows[..|rows|] == rows;
  }

  method CountRow(c: Counters, r: Row, ghost rows: seq<Row>) returns (d: Counters)
    requires c == CountersOf(rows)
    ensures d == CountersOf(rows + [r])
  {
    assert (rows + [r])[..|rows|] == rows;
    d := c;
    match r.review {
      case Pending => d := d.(pending := d.pending + 1);
      case Valid => d := d.(valid := d.valid + 1);
      case Invalid => d := d.(invalid := d.invalid + 1);
      case Other =>
    }
    if r.severity <= 1 {
      d := d.(high := d.high + 1);
    } else if r.severity == 2 {
      d := d.(medium := d.medium + 1);
    } else {
      d := d.(low := d.low + 1);
    }
  }

  // --- Distributions ---

  datatype Item<K> = Item(id: K, count: nat)

  function Ids<K>(items: seq<Item<K>>): seq<K> {
    seq(|items|, i requires 0 <= i < |items| => items[i].id)
  }

  function Total<K>(items: seq<Item<K>>): nat {
    if items == [] then 0 else Total(items[..|items| - 1]) + items[|items| - 1].count
  }

  // A table read out in whatever order the map is iterated in.
  method ReadOut<K(==)>(m: map<K, nat>) returns (items: seq<Item<K>>)
    ensures Distinct(Ids(items)) && (forall k :: k in Ids(items) <==> k in m)
    ensures forall i | 0 <= i < |items| :: items[i].id in m && items[i].count == m[items[i].id]
  {
    items := [];
    var todo := m.Keys;
    while todo != {}
      invariant todo <= m.Keys && Distinct(Ids(items))
      invariant forall k :: k in Ids(items) <==> k in m && k !in todo
      invariant forall i | 0 <= i < |items| :: items[i].id in m && items[i].count == m[items[i].id]
      decreases |todo|
    {
      var k :| k in todo;
      assert Ids(items + [Item(k, m[k])]) == Ids(items) + [k];
      items := items + [Item(k, m[k])];
      todo := todo - {k};
    }
  }

  // What reading out a table of the rows gives.
  ghost predicate Distributes<K(!new)>(items: seq<Item<K>>, rows: seq<Row>, key: Row -> K) {
    && Distinct(Ids(items)) && Covers(Ids(items), rows, key)
    && forall i | 0 <= i < |items| :: items[i].count == CountKey(rows, key, Any, items[i].id)
  }

  lemma ReadOutDistributes<K(!new)>(m: map<K, nat>, items: seq<Item<K>>, rows: seq<Row>, key: Row -> K)
    requires Tabulates(m, rows, key) && Distinct(Ids(items)) && forall k :: k in Ids(items) <==> k in m
    requires forall i | 0 <= i < |items| :: items[i].id in m && items[i].count == m[items[i].id]
    ensures Distributes(items, rows, key)
  {}

  lemma {:induction false} TotalIsSum<K(!new)>(items: seq<Item<K>>, rows: seq<Row>, key: Row -> K)
    requires forall i | 0 <= i < |items| :: items[i].count == CountKey(rows, key, Any, items[i].id)
    ensures Total(items) == SumKeys(Ids(items), rows, key, Any)
  {
    if items != [] {
      var init := items[..|items| - 1];
      TotalIsSum(init, rows, key);
      assert Ids(items)[..|items| - 1] == Ids(init);
    }
  }

  /** Every distribution read out of the rows adds up to the number of rows, however it is ordered. */
  lemma DistributionTotal<K(!new)>(items: seq<Item<K>>, rows: seq<Row>, key: Row -> K)
    requires Distributes(items, rows, key)
    ensures Total(items) == |rows|
  {
    TotalIsSum(items, rows, key);
    Conservation(Ids(items), rows, key, Any);
    CountAny(rows);
  }

  /** The severity counts add up to the number of rows. */
  lemma SeverityTotal(rows: seq<Row>)
    ensures var c := CountersOf(rows); c.high + c.medium + c.low == |rows| && c.pending + c.valid + c.invalid <= |rows|
  {
    CountSplit(rows);
  }

  // --- Rates ---

  function Percent(n: int, d: int): real {
    if d <= 0 then 0.0 else n as real * 100.0 / d as real
  }

  lemma PercentBounds(n: int, d: int)
    requires 0 <= n <= d
    ensures 0.0 <= Percent(n, d) <= 100.0
  {}

  /** Handling rate, false-alarm rate, average accuracy and every algorithm's accuracy lie between 0 and 100. */
  lemma RatesInRange(rows: seq<Row>, k: string)
    ensures var c, a, n := CountersOf(rows), AggOf(rows, k), |rows|;
      && 0.0 <= Percent(c.valid + c.invalid, n) <= 100.0 && 0.0 <= Percent(c.invalid, n) <= 100.0
      && 0.0 <= Percent(c.valid + c.pending, n) <= 100.0 && 0.0 <= Percent(a.valid + a.pending, a.alarms) <= 100.0
  {
    var c, a, n := CountersOf(rows), AggOf(rows, k), |rows|;
    CountSplit(rows);
    CountKeySplit(rows, AlgorithmKey, k);
    PercentBounds(c.valid + c.invalid, n);
    PercentBounds(c.invalid, n);
    PercentBounds(c.valid + c.pending, n);
    PercentBounds(a.valid + a.pending, a.alarms);
  }

  function Accuracy(a: Agg): real { Percent(a.valid + a.pending, a.alarms) }

  // The algorithms' accuracies weighted by their alarm counts.
  function Weighted(keys: seq<string>, rows: seq<Row>): real {
    if keys == [] then 0.0
    else
      var a := AggOf(rows, keys[|keys| - 1]);
      Weighted(keys[..|keys| - 1], rows) + a.alarms as real * Accuracy(a)
  }

  lemma {:induction false} WeightedIsSum(keys: seq<string>, rows: seq<Row>)
    ensures Weighted(keys, rows) == SumKeys(keys, rows, AlgorithmKey, IsAccurate) as real * 100.0
  {
    hide Percent, CountKey, Accuracy;
    if keys != [] {
      var k := keys[|keys| - 1];
      WeightedIsSum(keys[..|keys| - 1], rows);
      OneAlgorithm(rows, k);
    }
  }

  lemma OneAlgorithm(rows: seq<Row>, k: string)
    ensures var a := AggOf(rows, k); a.alarms as real * Accuracy(a) == CountKey(rows, AlgorithmKey, IsAccurate, k) as real * 100.0
  {
    hide Percent, CountKey;
    var a := AggOf(rows, k);
    CountKeySplit(rows, AlgorithmKey, k);
    PercentTimes(a.valid + a.pending, a.alarms);
  }

  lemma PercentTimes(n: int, d: int)
    requires 0 <= n <= d
    ensures d as real * Percent(n, d) == n as real * 100.0
  {}

  /** The average accuracy is the mean of the algorithms' accuracies weighted by their alarm counts. */
  lemma AverageIsWeightedMean(keys: seq<string>, rows: seq<Row>)
    requires Distinct(keys) && Covers(keys, rows, AlgorithmKey)
    ensures var c := CountersOf(rows);
      |rows| as real * Percent(c.valid + c.pending, |rows|) == Weighted(keys, rows)
  {
    hide Percent, Weighted, SumKeys, Count;
    WeightedIsSum(keys, rows);
    Conservation(keys, rows, AlgorithmKey, IsAccurate);
    CountSplit(rows);
    PercentTimes(Count(rows, IsValid) + Count(rows, IsPending), |rows|);
  }

  // --- Sorted distributions ---

  // By falling count; the order of equal counts, which is by name, is not modelled.
  predicate Ranked<K>(items: seq<Item<K>>) {
    forall i, j | 0 <= i < j < |items| :: items[i].count >= items[j].count
  }

  function Insert<K>(items: seq<Item<K>>, x: Item<K>): seq<Item<K>> {
    if items == [] || items[|items| - 1].count >= x.count then items + [x]
    else Insert(items[..|items| - 1], x) + [items[|items| - 1]]
  }

  function Sorted<K>(items: seq<Item<K>>): seq<Item<K>> {
    if items == [] then [] else Insert(Sorted(items[..|items| - 1]), items[|items| - 1])
  }

  lemma {:induction false} InsertAdds<K>(items: seq<Item<K>>, x: Item<K>)
    ensures multiset(Insert(items, x)) == multiset(items) + multiset{x}
  {
    if items != [] && items[|items| - 1].count < x.count {
      InsertAdds(items[..|items| - 1], x);
      assert items == items[..|items| - 1] + [items[|items| - 1]];
    }
  }

  lemma {:induction false} InsertRanks<K>(items: seq<Item<K>>, x: Item<K>)
    requires Ranked(items)
    ensures Ranked(Insert(items, x))
  {
    if items != [] && items[|items| - 1].count < x.count {
      var init, last := items[..|items| - 1], items[|items| - 1];
      InsertRanks(init, x);
      InsertAdds(init, x);
      var before := Insert(init, x);
      forall i | 0 <= i < |before| ensures before[i].count >= last.count {
        assert before[i] in multiset(init) + multiset{x};
      }
      assert Insert(items, x) == before + [last];
    }
  }

  lemma {:induction false} SortRanks<K>(items: seq<Item<K>>)
    ensures Ranked(Sorted(items)) && multiset(Sorted(items)) == multiset(items)
  {
    if items != [] {
      var init, last := items[..|items| - 1], items[|items| - 1];
      SortRanks(init);
      InsertRanks(Sorted(init), last);
      InsertAdds(Sorted(init), last);
      assert items == init + [last];
    }
  }

  lemma {:induction false} OnceEach<K>(items: seq<Item<K>>, x: Item<K>)
    requires Distinct(Ids(items))
    ensures multiset(items)[x] <= 1
  {
    if items != [] {
      var init, last := items[..|items| - 1], items[|items| - 1];
      assert Ids(items) == Ids(init) + [last.id];
      assert Distinct(Ids(init)) by { assert forall i | 0 <= i < |init| :: Ids(init)[i] == Ids(items)[i]; }
      OnceEach(init, x);
      assert items == init + [last];
      forall i | 0 <= i < |init| ensures init[i] != last { assert Ids(items)[i] != Ids(items)[|items| - 1]; }
    }
  }

  lemma TwiceAt<T>(xs: seq<T>, i: nat, j: nat)
    requires i < j < |xs| && xs[i] == xs[j]
    ensures multiset(xs)[xs[i]] >= 2
  {
    assert xs == xs[..i] + [xs[i]] + xs[i + 1..];
    assert xs[j] == xs[i + 1..][j - i - 1] && xs[j] in multiset(xs[i + 1..]);
  }

  // A reordered distribution is one.
  lemma Reordered<K(!new)>(items: seq<Item<K>>, sorted: seq<Item<K>>, rows: seq<Row>, key: Row -> K)
    requires Distributes(items, rows, key) && multiset(sorted) == multiset(items)
    ensures Distributes(sorted, rows, key)
  {
    forall i | 0 <= i < |sorted| ensures sorted[i].count == CountKey(rows, key, Any, sorted[i].id) {
      assert sorted[i] in multiset(items);
    }
    forall i, j | 0 <= i < j < |sorted| ensures Ids(sorted)[i] != Ids(sorted)[j] {
      if sorted[i].id == sorted[j].id {
        TwiceAt(sorted, i, j);
        OnceEach(items, sorted[i]);
      }
    }
    forall r | 0 <= r < |rows| ensures key(rows[r]) in Ids(sorted) {
      var i :| 0 <= i < |items| && Ids(items)[i] == key(rows[r]);
      assert items[i] in multiset(sorted);
      var j :| 0 <= j < |sorted| && sorted[j] == items[i];
      assert Ids(sorted)[j] == key(rows[r]);
    }
  }

  /** A table of the rows, read out and sorted: each key once with its exact count, falling, adding up
      to the number of rows. */
  method Distribution<K(==, !new)>(m: map<K, nat>, ghost rows: seq<Row>, ghost key: Row -> K) returns (items: seq<Item<K>>)
    requires Tabulates(m, rows, key)
    ensures Distributes(items, rows, key) && Ranked(items) && Total(items) == |rows|
  {
    var read := ReadOut(m);
    ReadOutDistributes(m, read, rows, key);
    items := Sorted(read);
    SortRanks(read);
    Reordered(read, items, rows, key);
    DistributionTotal(items, rows, key);
  }

  // --- The ranking ---

  function TopThree(items: seq<Item<string>>): seq<Item<string>> {
    if |items| > 3 then items[..3] else items
  }

  // A ranking of the rows' devices: exact counts, and nobody left out has more.
  ghost predicate IsTopThree(top: seq<Item<string>>, rows: seq<Row>) {
    && |top| <= 3 && Distinct(Ids(top)) && Ranked(top)
    && (forall i | 0 <= i < |top| :: top[i].count == CountKey(rows, DeviceKey, Any, top[i].id))
    && (forall d, i | 0 <= i < |top| && d !in Ids(top) :: CountKey(rows, DeviceKey, Any, d) <= top[i].count)
    && (|top| < 3 ==> Covers(Ids(top), rows, DeviceKey))
  }

  lemma {:induction false} NoRowNoCount<K>(keys: seq<K>, rows: seq<Row>, key: Row -> K, k: K)
    requires Covers(keys, rows, key) && k !in keys
    ensures CountKey(rows, key, Any, k) == 0
  {
    if rows != [] {
      var init := rows[..|rows| - 1];
      assert Covers(keys, init, key) by { assert forall i | 0 <= i < |init| :: init[i] == rows[i]; }
      assert key(rows[|rows| - 1]) in keys;
      NoRowNoCount(keys, init, key, k);
    }
  }

  /** The first three of the sorted devices are a ranking of the rows: no device left out has more
      alarms than one in it. */
  lemma TopThreeDominates(items: seq<Item<string>>, rows: seq<Row>)
    requires Distributes(items, rows, DeviceKey) && Ranked(items)
    ensures IsTopThree(TopThree(items), rows)
  {
    var top := TopThree(items);
    assert forall i | 0 <= i < |top| :: Ids(top)[i] == Ids(items)[i];
    forall d, i | 0 <= i < |top| && d !in Ids(top) ensures CountKey(rows, DeviceKey, Any, d) <= top[i].count {
      if d in Ids(items) {
        var j :| 0 <= j < |items| && Ids(items)[j] == d;
        forall k | 0 <= k < |top| ensures items[k].id != d { assert Ids(top)[k] in Ids(top); }
        assert items[i].count >= items[j].count == CountKey(rows, DeviceKey, Any, d);
      } else {
        NoRowNoCount(Ids(items), rows, DeviceKey, d);
      }
    }
  }

  // --- The trend ---

  function StepOf(unit: Unit): nat { if unit == Hour then UsageLedger.HOUR else UsageLedger.DAY }

  method TrendPoints(start: int, end: int, unit: Unit, offset: int, counts: map<int, nat>) returns (points: seq<Item<int>>)
    ensures points == Points(Truncate(start, unit, offset), Truncate(end, unit, offset), StepOf(unit), counts)
  {
    var cursor, last := Truncate(start, unit, offset), Truncate(end, unit, offset);
    points := [];
    while cursor <= last
      invariant points + Points(cursor, last, StepOf(unit), counts) == Points(Truncate(start, unit, offset), last, StepOf(unit), counts)
      decreases last - cursor
    {
      assert points + ([Item(cursor, At(counts, cursor))] + Points(cursor + StepOf(unit), last, StepOf(unit), counts))
        == (points + [Item(cursor, At(counts, cursor))]) + Points(cursor + StepOf(unit), last, StepOf(unit), counts);
      points := points + [Item(cursor, At(counts, cursor))];
      cursor := cursor + StepOf(unit);
    }
  }

  function Points(cursor: int, last: int, step: nat, counts: map<int, nat>): seq<Item<int>>
    requires step > 0
    decreases last - cursor
  {
    if cursor > last then [] else [Item(cursor, At(counts, cursor))] + Points(cursor + step, last, step, counts)
  }

  // The i-th point stands i steps after the first.
  lemma {:induction false} PointAt(cursor: int, last: int, step: nat, counts: map<int, nat>, i: nat)
    requires step > 0 && i < |Points(cursor, last, step, counts)|
    ensures Points(cursor, last, step, counts)[i] == Item(cursor + i * step, At(counts, cursor + i * step))
    ensures cursor + i * step <= last
    decreases i
  {
    if i > 0 {
      PointAt(cursor + step, last, step, counts, i - 1);
      assert cursor + step + (i - 1) * step == cursor + i * step;
    }
  }

  lemma {:induction false} PointReached(cursor: int, last: int, step: nat, counts: map<int, nat>, n: nat)
    requires step > 0 && cursor + n * step <= last
    ensures n < |Points(cursor, last, step, counts)|
    decreases n
  {
    if n == 0 {
    } else {
      assert cursor + step + (n - 1) * step == cursor + n * step;
      NextWithin(cursor, step, n, last);
      PointReached(cursor + step, last, step, counts, n - 1);
    }
  }

  lemma NextWithin(cursor: int, step: nat, n: nat, last: int)
    requires n > 0 && cursor + n * step <= last
    ensures cursor + step <= last
  {}

  // Bucket starts of one unit are whole steps apart, and truncation keeps the order.
  lemma BucketSteps(a: int, b: int, unit: Unit, offset: int) returns (n: nat)
    requires a <= b
    ensures Truncate(b, unit, offset) == Truncate(a, unit, offset) + n * StepOf(unit)
  {
    var x, y := a + offset, b + offset;
    if unit == Hour {
      n := y / UsageLedger.HOUR - x / UsageLedger.HOUR;
    } else {
      n := y / UsageLedger.DAY - x / UsageLedger.DAY;
    }
  }

  lemma PointsDistinct(cursor: int, last: int, step: nat, counts: map<int, nat>)
    requires step > 0
    ensures Distinct(Ids(Points(cursor, last, step, counts)))
  {
    var points := Points(cursor, last, step, counts);
    forall i, j | 0 <= i < j < |points| ensures points[i].id != points[j].id {
      PointAt(cursor, last, step, counts, i);
      PointAt(cursor, last, step, counts, j);
      StepsApart(i, j, step);
    }
  }

  lemma StepsApart(i: nat, j: nat, step: nat)
    requires i < j && step > 0
    ensures i * step < j * step
  {}

  /** When every row lies inside the range, the zero-filled trend adds up to the number of rows. */
  lemma TrendTotal(rows: seq<Row>, start: int, end: int, unit: Unit, offset: int, counts: map<int, nat>)
    requires Tabulates(counts, rows, BucketKey(unit, offset)) && forall r | r in rows :: start <= r.at <= end
    ensures Total(Points(Truncate(start, unit, offset), Truncate(end, unit, offset), StepOf(unit), counts)) == |rows|
  {
    var first, last, step := Truncate(start, unit, offset), Truncate(end, unit, offset), StepOf(unit);
    var points, key := Points(first, last, step, counts), BucketKey(unit, offset);
    PointsDistinct(first, last, step, counts);
    forall i | 0 <= i < |points| ensures points[i].count == CountKey(rows, key, Any, points[i].id) {
      PointAt(first, last, step, counts, i);
    }
    forall i | 0 <= i < |rows| ensures key(rows[i]) in Ids(points) {
      assert rows[i] in rows;
      var n := BucketSteps(start, rows[i].at, unit, offset);
      var m := BucketSteps(rows[i].at, end, unit, offset);
      assert m * step >= 0;
      PointReached(first, last, step, counts, n);
      PointAt(first, last, step, counts, n);
      assert Ids(points)[n] == key(rows[i]);
    }
    DistributionTotal(points, rows, key);
  }

  // --- The whole aggregation ---

  // How many rows of the query are of this kind.
  function CountRaw(raw: seq<RawRow>, p: RawRow -> bool): nat {
    if raw == [] then 0 else CountRaw(raw[..|raw| - 1], p) + if p(raw[|raw| - 1]) then 1 else 0
  }

  function OfStatus(status: string): RawRow -> bool { (r: RawRow) => Lower(TrimSpace(r.status)) == status }
  function OfDevice(id: string): RawRow -> bool { (r: RawRow) => TrimSpace(r.device) == id }
  function OfAlgorithm(id: string): RawRow -> bool { (r: RawRow) => TrimSpace(r.algorithm) == id }
  function OfArea(id: string): RawRow -> bool { (r: RawRow) => TrimSpace(r.area) == id }
  function OfSeverity(low: int, high: int): RawRow -> bool { (r: RawRow) => low <= r.severity <= high }
  function BadlyUrgent(r: RawRow): bool { r.severity <= 1 }
  function Trivial(r: RawRow): bool { r.severity >= 3 }
  function Within(from: int, to: int): RawRow -> bool { (r: RawRow) => from <= r.at < to }

  lemma {:induction false} CountRawIs(raw: seq<RawRow>, p: RawRow -> bool, q: Row -> bool)
    requires forall r :: p(r) <==> q(RowOf(r))
    ensures CountRaw(raw, p) == Count(RowsOf(raw), q)
  {
    if raw != [] {
      var init := raw[..|raw| - 1];
      CountRawIs(init, p, q);
      assert RowsOf(raw)[..|raw| - 1] == RowsOf(init);
    }
  }

  lemma {:induction false} CountRawKeyIs<K>(raw: seq<RawRow>, p: RawRow -> bool, key: Row -> K, k: K)
    requires forall r :: p(r) <==> key(RowOf(r)) == k
    ensures CountRaw(raw, p) == CountKey(RowsOf(raw), key, Any, k)
  {
    if raw != [] {
      var init := raw[..|raw| - 1];
      CountRawKeyIs(init, p, key, k);
      assert RowsOf(raw)[..|raw| - 1] == RowsOf(init);
    }
  }

  /** The counters count the rows of the query by what their status says, in any case, and by severity:
      up to 1 is high, 2 medium, the rest low. */
  lemma CountersMean(raw: seq<RawRow>)
    ensures var c := CountersOf(RowsOf(raw));
      && c.pending == CountRaw(raw, OfStatus("pending")) && c.valid == CountRaw(raw, OfStatus("valid"))
      && c.invalid == CountRaw(raw, OfStatus("invalid"))
      && c.high == CountRaw(raw, BadlyUrgent) && c.medium == CountRaw(raw, OfSeverity(2, 2)) && c.low == CountRaw(raw, Trivial)
  {
    hide TrimSpace, Lower;
    assert "pending"[0] != "valid"[0] && "pending"[0] != "invalid"[1] && "valid"[0] != "invalid"[0];
    CountRawIs(raw, OfStatus("pending"), IsPending);
    CountRawIs(raw, OfStatus("valid"), IsValid);
    CountRawIs(raw, OfStatus("invalid"), IsInvalid);
    CountRawIs(raw, BadlyUrgent, IsHigh);
    CountRawIs(raw, OfSeverity(2, 2), IsMedium);
    CountRawIs(raw, Trivial, IsLow);
  }

  /** The keys of the distributions are the trimmed ids; rows without an area or an algorithm are counted
      under a key of their own, and a bucket counts the rows of its hour or day. */
  lemma KeysMean(raw: seq<RawRow>, id: string, unit: Unit, offset: int, t: int)
    ensures var rows := RowsOf(raw);
      && CountKey(rows, DeviceKey, Any, id) == CountRaw(raw, OfDevice(id))
      && CountKey(rows, AlgorithmKey, Any, id) == CountRaw(raw, OfAlgorithm(id))
      && (id != "" && id != "__unassigned__" ==> CountKey(rows, AreaKey, Any, id) == CountRaw(raw, OfArea(id)))
      && (id != "" && id != "__unknown__" ==> CountKey(rows, TypeKey, Any, id) == CountRaw(raw, OfAlgorithm(id)))
      && (CountRaw(raw, OfArea("__unassigned__")) == 0 ==> CountKey(rows, AreaKey, Any, "__unassigned__") == CountRaw(raw, OfArea("")))
      && (CountRaw(raw, OfAlgorithm("__unknown__")) == 0 ==> CountKey(rows, TypeKey, Any, "__unknown__") == CountRaw(raw, OfAlgorithm("")))
      && var from := Truncate(t, unit, offset);
         CountKey(rows, BucketKey(unit, offset), Any, from) == CountRaw(raw, Within(from, from + if unit == Hour then 3600 else 86400))
  {
    hide TrimSpace, ReviewOf, Truncate;
    CountRawKeyIs(raw, OfDevice(id), DeviceKey, id);
    CountRawKeyIs(raw, OfAlgorithm(id), AlgorithmKey, id);
    if id != "" && id != "__unassigned__" { CountRawKeyIs(raw, OfArea(id), AreaKey, id); }
    if id != "" && id != "__unknown__" { CountRawKeyIs(raw, OfAlgorithm(id), TypeKey, id); }
    if CountRaw(raw, OfArea("__unassigned__")) == 0 { BlankAreas(raw); }
    if CountRaw(raw, OfAlgorithm("__unknown__")) == 0 { BlankTypes(raw); }
    var from := Truncate(t, unit, offset);
    var to := from + if unit == Hour then 3600 else 86400;
    forall r ensures Within(from, to)(r) <==> BucketKey(unit, offset)(RowOf(r)) == from { SameBucketIff(t, r.at, unit, offset); }
    CountRawKeyIs(raw, Within(from, to), BucketKey(unit, offset), from);
  }

  lemma {:induction false} BlankAreas(raw: seq<RawRow>)
    requires CountRaw(raw, OfArea("__unassigned__")) == 0
    ensures CountKey(RowsOf(raw), AreaKey, Any, "__unassigned__") == CountRaw(raw, OfArea(""))
  {
    hide TrimSpace, ReviewOf;
    if raw != [] {
      BlankAreas(raw[..|raw| - 1]);
      assert RowsOf(raw)[..|raw| - 1] == RowsOf(raw[..|raw| - 1]);
    }
  }

  lemma {:induction false} BlankTypes(raw: seq<RawRow>)
    requires CountRaw(raw, OfAlgorithm("__unknown__")) == 0
    ensures CountKey(RowsOf(raw), TypeKey, Any, "__unknown__") == CountRaw(raw, OfAlgorithm(""))
  {
    hide TrimSpace, ReviewOf;
    if raw != [] {
      BlankTypes(raw[..|raw| - 1]);
      assert RowsOf(raw)[..|raw| - 1] == RowsOf(raw[..|raw| - 1]);
    }
  }

  lemma SameBucketIff(t: int, u: int, unit: Unit, offset: int)
    ensures var from := Truncate(t, unit, offset);
      Truncate(u, unit, offset) == from <==> from <= u < from + if unit == Hour then 3600 else 86400
  {
    var x, y := t + offset, u + offset;
    if unit == Hour {
      var q := x / UsageLedger.HOUR;
      if q * 3600 <= y < q * 3600 + 3600 { UsageLedger.HourUnique(y, q, y - q * 3600); }
    } else {
      var q := x / UsageLedger.DAY;
      if q * 86400 <= y < q * 86400 + 86400 { UsageLedger.DayUnique(y, q, y - q * 86400); }
    }
  }

  datatype AlgorithmItem = AlgorithmItem(id: string, count: nat, accuracy: real)

  datatype Stats = Stats(counters: Counters, total: nat, handlingRate: real, falseAlarmRate: real, averageAccuracy: real,
                         algorithms: seq<AlgorithmItem>, areas: seq<Item<string>>, types: seq<Item<string>>,
                         top: seq<Item<string>>, trend: seq<Item<int>>)

  function RowsOf(raw: seq<RawRow>): seq<Row> {
    seq(|raw|, i requires 0 <= i < |raw| => RowOf(raw[i]))
  }

  function AlarmCounts(m: map<string, Agg>): map<string, nat> {
    map k | k in m :: m[k].alarms
  }

  lemma AlarmCountsTabulate(m: map<string, Agg>, rows: seq<Row>)
    requires Aggregates(m, rows)
    ensures Tabulates(AlarmCounts(m), rows, AlgorithmKey)
  {
    forall k ensures At(AlarmCounts(m), k) == CountKey(rows, AlgorithmKey, Any, k) {
      assert AggAt(m, k) == AggOf(rows, k);
    }
    forall k ensures k in AlarmCounts(m) <==> exists i :: 0 <= i < |rows| && AlgorithmKey(rows[i]) == k {
      if k in m {
        var i :| 0 <= i < |rows| && rows[i].algorithm == k;
        assert AlgorithmKey(rows[i]) == k;
      }
    }
  }

  // Each item with the accuracy of its algorithm.
  function WithAccuracy(items: seq<Item<string>>, m: map<string, Agg>): seq<AlgorithmItem> {
    seq(|items|, i requires 0 <= i < |items| => AlgorithmItem(items[i].id, items[i].count, Accuracy(AggAt(m, items[i].id))))
  }

  // Alarm counts times accuracies, summed over a list of algorithms.
  function WeightedItems(items: seq<AlgorithmItem>): real {
    if items == [] then 0.0
    else WeightedItems(items[..|items| - 1]) + items[|items| - 1].count as real * items[|items| - 1].accuracy
  }

  lemma {:induction false} WeightedItemsAre(items: seq<Item<string>>, m: map<string, Agg>, rows: seq<Row>)
    requires Aggregates(m, rows)
    requires forall i | 0 <= i < |items| :: items[i].count == CountKey(rows, AlgorithmKey, Any, items[i].id)
    ensures WeightedItems(WithAccuracy(items, m)) == Weighted(Ids(items), rows)
  {
    hide CountKey, Accuracy;
    if items != [] {
      var init, last := items[..|items| - 1], items[|items| - 1];
      WeightedItemsAre(init, m, rows);
      assert WithAccuracy(items, m)[..|items| - 1] == WithAccuracy(init, m);
      assert Ids(items)[..|items| - 1] == Ids(init);
      assert AggAt(m, last.id) == AggOf(rows, last.id);
    }
  }

  // What the figures say about the rows.
  ghost predicate Describes(s: Stats, rows: seq<Row>) {
    && s.counters == CountersOf(rows) && s.total == |rows|
    && s.handlingRate == Percent(s.counters.valid + s.counters.invalid, s.total)
    && s.falseAlarmRate == Percent(s.counters.invalid, s.total)
    && 0.0 <= s.handlingRate <= 100.0 && 0.0 <= s.falseAlarmRate <= 100.0
    && Distributes(s.areas, rows, AreaKey) && Ranked(s.areas) && Total(s.areas) == |rows|
    && Distributes(s.types, rows, TypeKey) && Ranked(s.types) && Total(s.types) == |rows|
    && IsTopThree(s.top, rows)
  }

  ghost predicate DescribesAlgorithms(s: Stats, rows: seq<Row>) {
    && (exists items :: Distributes(items, rows, AlgorithmKey) && Ranked(items) && Total(items) == |rows| && SameCounts(s.algorithms, items))
    && (forall a | a in s.algorithms :: a.accuracy == Accuracy(AggOf(rows, a.id)) && 0.0 <= a.accuracy <= 100.0)
    && 0.0 <= s.averageAccuracy <= 100.0 && (rows == [] ==> s.averageAccuracy == 0.0)
    && |rows| as real * s.averageAccuracy == WeightedItems(s.algorithms)
  }

  predicate SameCounts(algorithms: seq<AlgorithmItem>, items: seq<Item<string>>) {
    |algorithms| == |items| && forall i | 0 <= i < |items| :: algorithms[i].id == items[i].id && algorithms[i].count == items[i].count
  }

  // The counters and rates in terms of the rows of the query.
  ghost predicate CountsRows(s: Stats, raw: seq<RawRow>) {
    var pending, valid, invalid := CountRaw(raw, OfStatus("pending")), CountRaw(raw, OfStatus("valid")), CountRaw(raw, OfStatus("invalid"));
    && s.counters == Counters(pending, valid, invalid, CountRaw(raw, BadlyUrgent), CountRaw(raw, OfSeverity(2, 2)), CountRaw(raw, Trivial))
    && |raw| as real * s.handlingRate == (valid + invalid) as real * 100.0
    && |raw| as real * s.falseAlarmRate == invalid as real * 100.0
    && |raw| as real * s.averageAccuracy == (valid + pending) as real * 100.0
  }

  lemma RatesMean(s: Stats, raw: seq<RawRow>)
    requires var c, n := CountersOf(RowsOf(raw)), |raw|;
      && s.counters == c && s.handlingRate == Percent(c.valid + c.invalid, n) && s.falseAlarmRate == Percent(c.invalid, n)
      && s.averageAccuracy == Percent(c.valid + c.pending, n)
    ensures CountsRows(s, raw)
  {
    hide Percent, CountersOf, CountRaw;
    var c, n := CountersOf(RowsOf(raw)), |raw|;
    CountersMean(raw);
    SeverityTotal(RowsOf(raw));
    PercentTimes(c.valid + c.invalid, n);
    PercentTimes(c.invalid, n);
    PercentTimes(c.valid + c.pending, n);
  }

  // The four tables read out and sorted.
  datatype Lists = Lists(areas: seq<Item<string>>, types: seq<Item<string>>, devices: seq<Item<string>>, algorithms: seq<Item<string>>)

  ghost predicate ReadFrom(l: Lists, rows: seq<Row>) {
    && Distributes(l.areas, rows, AreaKey) && Ranked(l.areas) && Total(l.areas) == |rows|
    && Distributes(l.types, rows, TypeKey) && Ranked(l.types) && Total(l.types) == |rows|
    && Distributes(l.devices, rows, DeviceKey) && Ranked(l.devices) && Total(l.devices) == |rows|
    && Distributes(l.algorithms, rows, AlgorithmKey) && Ranked(l.algorithms) && Total(l.algorithms) == |rows|
  }

  method ReadTables(t: Tables, unit: Unit, offset: int, ghost rows: seq<Row>) returns (l: Lists)
    requires Summarises(t, rows, unit, offset)
    ensures ReadFrom(l, rows)
  {
    hide Distributes, Ranked, Tabulates, Aggregates, CountersOf;
    var areas := Distribution(t.areas, rows, AreaKey);
    var types := Distribution(t.types, rows, TypeKey);
    var devices := Distribution(t.devices, rows, DeviceKey);
    AlarmCountsTabulate(t.algorithms, rows);
    var algorithms := Distribution(AlarmCounts(t.algorithms), rows, AlgorithmKey);
    l := Lists(areas, types, devices, algorithms);
  }

  /** From the rows of the query to the figures of the page: every distribution adds up to the number
      of rows, the average accuracy is the weighted mean of the listed ones, the devices are a true
      ranking, and the zero-filled trend of a range that holds the rows adds up to them too. */
  method BuildStats(raw: seq<RawRow>, start: int, end: int, unit: Unit, offset: int) returns (s: Stats)
    ensures Describes(s, RowsOf(raw)) && DescribesAlgorithms(s, RowsOf(raw))
    ensures CountsRows(s, raw)
    ensures (forall r | r in raw :: start <= r.at <= end) ==> Total(s.trend) == |raw|
  {
    hide Distributes, Ranked, Tabulates, Aggregates, CountersOf, Percent, Weighted, IsTopThree, DescribesAlgorithms, WithAccuracy, Total;
    var rows := RowsOf(raw);
    var t := Accumulate(rows, unit, offset);
    var l := ReadTables(t, unit, offset, rows);
    var c := t.counters;
    RatesInRange(rows, "");
    TopThreeDominates(l.devices, rows);
    var trend := TrendPoints(start, end, unit, offset, t.trend);
    if forall r | r in raw :: start <= r.at <= end { TrendOfRaw(raw, start, end, unit, offset, t.trend); }
    s := Stats(c, |rows|, Percent(c.valid + c.invalid, |rows|), Percent(c.invalid, |rows|), Percent(c.valid + c.pending, |rows|),
               WithAccuracy(l.algorithms, t.algorithms), l.areas, l.types, TopThree(l.devices), trend);
    AlgorithmsDescribed(s, l.algorithms, t.algorithms, rows);
    RatesMean(s, raw);
  }

  lemma TrendOfRaw(raw: seq<RawRow>, start: int, end: int, unit: Unit, offset: int, counts: map<int, nat>)
    requires Tabulates(counts, RowsOf(raw), BucketKey(unit, offset)) && forall r | r in raw :: start <= r.at <= end
    ensures Total(Points(Truncate(start, unit, offset), Truncate(end, unit, offset), StepOf(unit), counts)) == |raw|
  {
    var rows := RowsOf(raw);
    forall r | r in rows ensures start <= r.at <= end {
      var i :| 0 <= i < |rows| && rows[i] == r;
      assert raw[i] in raw;
    }
    TrendTotal(rows, start, end, unit, offset, counts);
  }

  lemma AlgorithmsDescribed(s: Stats, items: seq<Item<string>>, m: map<string, Agg>, rows: seq<Row>)
    requires Aggregates(m, rows) && Distributes(items, rows, AlgorithmKey) && Ranked(items) && Total(items) == |rows|
    requires s.algorithms == WithAccuracy(items, m)
    requires var c := CountersOf(rows); s.averageAccuracy == Percent(c.valid + c.pending, |rows|)
    ensures DescribesAlgorithms(s, rows)
  {
    hide Distributes, Ranked, Aggregates, WithAccuracy, Percent, CountersOf, AggOf, Accuracy, WeightedItems, SameCounts, Total;
    Accuracies(s.algorithms, items, m, rows);
    Mean(s, items, m, rows);
    RatesInRange(rows, "");
    NoRowsNoRate(rows);
  }

  lemma NoRowsNoRate(rows: seq<Row>)
    ensures rows == [] ==> var c := CountersOf(rows); Percent(c.valid + c.pending, |rows|) == 0.0
  {}

  lemma Accuracies(algorithms: seq<AlgorithmItem>, items: seq<Item<string>>, m: map<string, Agg>, rows: seq<Row>)
    requires Aggregates(m, rows) && algorithms == WithAccuracy(items, m)
    ensures SameCounts(algorithms, items)
    ensures forall a | a in algorithms :: a.accuracy == Accuracy(AggOf(rows, a.id)) && 0.0 <= a.accuracy <= 100.0
  {
    hide Percent, AggAt, AggOf, CountersOf;
    forall a | a in algorithms ensures a.accuracy == Accuracy(AggOf(rows, a.id)) && 0.0 <= a.accuracy <= 100.0 {
      assert AggAt(m, a.id) == AggOf(rows, a.id);
      RatesInRange(rows, a.id);
    }
  }

  lemma Mean(s: Stats, items: seq<Item<string>>, m: map<string, Agg>, rows: seq<Row>)
    requires Aggregates(m, rows) && Distributes(items, rows, AlgorithmKey) && s.algorithms == WithAccuracy(items, m)
    requires var c := CountersOf(rows); s.averageAccuracy == Percent(c.valid + c.pending, |rows|)
    ensures |rows| as real * s.averageAccuracy == WeightedItems(s.algorithms)
  {
    hide Percent, Weighted, CountKey, Accuracy, CountersOf, Aggregates;
    WeightedItemsAre(items, m, rows);
    AverageIsWeightedMean(Ids(items), rows);
  }
}
