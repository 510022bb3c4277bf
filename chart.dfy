/** The summarising stage of the pipeline, `prepareChartData` (src/lib/data.ts):
    one row per group with means and percentages (aggregated mode), or one row
    per group member with the literal field values (raw mode). */
module Chart {
  import opened Types
  import opened Seqs
  import opened Data

  /** An output row. `AggregatedRow` is `{ name: groupId, [metric]: scalar }`;
      `RawRow` is `{ group: groupId, [metric]: literal }`. */
  datatype Row =
    | AggregatedRow(name: string, stats: map<Field, real>)
    | RawRow(group: string, values: map<Field, Value>)

  // ---------------------------------------------------------------- specification

  /** The decoded bags of a group's records, in record order. */
  function Bags(items: seq<DataItem>): (r: seq<PropertyBag>)
    ensures |r| <= |items|
  {
    if items == [] then []
    else
      var init, last := items[..|items| - 1], items[|items| - 1];
      Bags(init) + (if last.parsedCustomProperties.Some? then [last.parsedCustomProperties.value] else [])
  }

  /** The bags of a group are those of its decoded records, in record order. */
  lemma {:induction false} BagsAreDecoded(items: seq<DataItem>)
    ensures |Bags(items)| == |DecodedItems(items)|
    ensures forall k :: 0 <= k < |Bags(items)| ==>
              DecodedItems(items)[k].parsedCustomProperties == Some(Bags(items)[k])
  {
    if items != [] {
      var init, last := items[..|items| - 1], items[|items| - 1];
      BagsAreDecoded(init);
      assert items == init + [last];
      FilterSnoc(HasBagFn(), init, last);
    }
  }

  /** The bags of a group grown by one record. */
  lemma BagsSnoc(items: seq<DataItem>, x: DataItem)
    ensures Bags(items + [x]) == Bags(items) + (if x.parsedCustomProperties.Some? then [x.parsedCustomProperties.value] else [])
  {
    assert (items + [x])[..|items|] == items;
  }

  /** `values = bags.map(bag => bag[metric])`. */
  function FieldValues(bags: seq<PropertyBag>, f: Field): (r: seq<Value>)
    ensures |r| == |bags|
    ensures forall i :: 0 <= i < |bags| ==> r[i] == Lookup(bags[i], f)
  {
    seq(|bags|, i requires 0 <= i < |bags| => Lookup(bags[i], f))
  }

  /** `values.reduce((acc, val) => acc + val, 0)`, adding from the left; a
      boolean would be added as 0 or 1. */
  function Sum(values: seq<Value>): real
  {
    if values == [] then 0.0
    else Sum(values[..|values| - 1]) + ToNumber(values[|values| - 1])
  }

  /** The left-to-right `reduce` adds up the parts of any split of the list. */
  lemma {:induction false} SumAppend(a: seq<Value>, b: seq<Value>)
    ensures Sum(a + b) == Sum(a) + Sum(b)
    decreases |b|
  {
    if b == [] {
      assert a + b == a;
    } else {
      var init, last := b[..|b| - 1], b[|b| - 1];
      assert (a + b)[..|a + b| - 1] == a + init;
      assert (a + b)[|a + b| - 1] == last;
      SumAppend(a, init);
    }
  }

  lemma SumSnoc(values: seq<Value>, v: Value)
    ensures Sum(values + [v]) == Sum(values) + ToNumber(v)
  {
    assert (values + [v])[..|values|] == values;
  }

  /** `values.filter(v => v === true).length`. */
  function TrueCount(values: seq<Value>): (r: nat)
    ensures r <= |values|
    ensures r == multiset(values)[Bool(true)]
  {
    if values == [] then 0
    else
      var init, last := values[..|values| - 1], values[|values| - 1];
      assert values == init + [last];
      TrueCount(init) + (if last == Bool(true) then 1 else 0)
  }

  /** `sum / values.length`. */
  function Mean(values: seq<Value>): (r: real)
    requires |values| > 0
    ensures r * (|values| as real) == Sum(values)
  {
    Sum(values) / (|values| as real)
  }

  /** `(trueCount / values.length) * 100`: a percentage between 0 and 100. */
  function Percentage(values: seq<Value>): (r: real)
    requires |values| > 0
    ensures 0.0 <= r <= 100.0
    ensures r * (|values| as real) == 100.0 * (TrueCount(values) as real)
  {
    var t, n := TrueCount(values) as real, |values| as real;
    PercentageBounds(t, n);
    (t / n) * 100.0
  }

  lemma PercentageBounds(t: real, n: real)
    requires 0.0 <= t <= n && n > 0.0
    ensures 0.0 <= (t / n) * 100.0 <= 100.0
    ensures (t / n) * 100.0 * n == 100.0 * t
  {
    assert t / n * n == t;
  }

  /** What `result[metric]` is set to for one group, or `None` when the key is
      left absent because the group has no decoded member. The type of the
      first value decides between a mean and a percentage of true values; with
      typed bags that is the declared type of the metric. */
  function MetricStat(items: seq<DataItem>, metric: Field): (r: Option<real>)
    ensures r.Some? <==> |Bags(items)| > 0
    ensures r.Some? && KindOf(metric) == NumberType ==> r.value == Mean(FieldValues(Bags(items), metric))
    ensures r.Some? && KindOf(metric) == BooleanType ==> r.value == Percentage(FieldValues(Bags(items), metric))
  {
    var values := FieldValues(Bags(items), metric);
    if |values| > 0 && values[0].Num? then Some(Mean(values))
    else if |values| > 0 && values[0].Bool? then Some(Percentage(values))
    else None
  }

  /** The `result` record of one group after the `metrics.forEach` loop: a key
      for every metric exactly when the group has a decoded member. */
  function AggregateStats(items: seq<DataItem>, metrics: seq<Field>): (r: map<Field, real>)
    ensures forall m :: m in r <==> m in metrics && |Bags(items)| > 0
    ensures forall m :: m in r ==> MetricStat(items, m) == Some(r[m])
  {
    if metrics == [] then map[]
    else
      var prev := AggregateStats(items, metrics[..|metrics| - 1]);
      var m := metrics[|metrics| - 1];
      match MetricStat(items, m)
      case Some(s) => prev[m := s]
      case None => prev
  }

  /** With a single metric, the group's record holds that metric's statistic,
      or nothing when the group has no decoded member. */
  lemma SingleMetricStats(items: seq<DataItem>, m: Field)
    ensures AggregateStats(items, [m]) == match MetricStat(items, m) case Some(s) => map[m := s] case None => map[]
  {
    assert [m][..0] == [];
  }

  /** Aggregated mode: one row per group entry, in entry order. */
  function AggregatedRows(grouped: seq<GroupEntry>, metrics: seq<Field>): seq<Row>
  {
    seq(|grouped|, j requires 0 <= j < |grouped| =>
      AggregatedRow(grouped[j].key, AggregateStats(grouped[j].items, metrics)))
  }

  /** The raw `entry` of one decoded record: `entry[metric] = bag[metric]` for
      every metric. */
  function ProjectRecord(bag: PropertyBag, metrics: seq<Field>): (r: map<Field, Value>)
    ensures forall m :: m in r <==> m in metrics
    ensures forall m :: m in r ==> r[m] == Lookup(bag, m)
  {
    if metrics == [] then map[]
    else
      var m := metrics[|metrics| - 1];
      ProjectRecord(bag, metrics[..|metrics| - 1])[m := Lookup(bag, m)]
  }

  /** The raw rows of one group: one per decoded member, in member order, each
      tagged with the group key. */
  function GroupRows(key: string, items: seq<DataItem>, metrics: seq<Field>): (r: seq<Row>)
    ensures |r| == |Bags(items)|
    ensures forall k :: 0 <= k < |r| ==> r[k] == RawRow(key, ProjectRecord(Bags(items)[k], metrics))
  {
    if items == [] then []
    else
      var init, last := items[..|items| - 1], items[|items| - 1];
      GroupRows(key, init, metrics) +
        (if last.parsedCustomProperties.Some?
         then [RawRow(key, ProjectRecord(last.parsedCustomProperties.value, metrics))]
         else [])
  }

  /** The number of decoded members summed over all group entries. */
  function MemberTotal(grouped: seq<GroupEntry>): nat
  {
    if grouped == [] then 0
    else MemberTotal(grouped[..|grouped| - 1]) + |Bags(grouped[|grouped| - 1].items)|
  }

  /** Raw mode: the rows of every group, group after group. */
  function RawRows(grouped: seq<GroupEntry>, metrics: seq<Field>): (r: seq<Row>)
    ensures |r| == MemberTotal(grouped)
  {
    if grouped == [] then []
    else
      var last := grouped[|grouped| - 1];
      RawRows(grouped[..|grouped| - 1], metrics) + GroupRows(last.key, last.items, metrics)
  }

  function ChartData(grouped: seq<GroupEntry>, metrics: seq<Field>, isAggregated: bool): seq<Row>
  {
    if isAggregated then AggregatedRows(grouped, metrics) else RawRows(grouped, metrics)
  }

  // ---------------------------------------------------------------- properties

  /** Aggregated mode: row `j` is named after entry `j`; a metric is present
      exactly when the group has decoded members; numbers are averaged and
      booleans give a percentage of true values between 0 and 100. */
  lemma AggregatedRowAt(grouped: seq<GroupEntry>, metrics: seq<Field>, j: int, m: Field)
    requires 0 <= j < |grouped|
    ensures |ChartData(grouped, metrics, true)| == |grouped|
    ensures ChartData(grouped, metrics, true)[j].AggregatedRow?
    ensures ChartData(grouped, metrics, true)[j].name == grouped[j].key
    ensures var stats := ChartData(grouped, metrics, true)[j].stats;
            var bags := Bags(grouped[j].items);
            && (m in stats <==> m in metrics && |bags| > 0)
            && (m in stats && KindOf(m) == NumberType ==> stats[m] == Mean(FieldValues(bags, m)))
            && (m in stats && KindOf(m) == BooleanType ==> 0.0 <= stats[m] <= 100.0)
  {
  }

  /** Raw rows are produced group by group: the rows of a concatenation of
      entries are the rows of each part, one after the other. */
  lemma {:induction false} RawRowsAppend(a: seq<GroupEntry>, b: seq<GroupEntry>, metrics: seq<Field>)
    ensures RawRows(a + b, metrics) == RawRows(a, metrics) + RawRows(b, metrics)
    decreases |b|
  {
    if b == [] {
      assert a + b == a;
    } else {
      var init, last := b[..|b| - 1], b[|b| - 1];
      var tail := GroupRows(last.key, last.items, metrics);
      assert RawRows(a + b, metrics) == RawRows(a + init, metrics) + tail by {
        assert (a + b)[..|a + b| - 1] == a + init;
        assert (a + b)[|a + b| - 1] == last;
      }
      assert RawRows(b, metrics) == RawRows(init, metrics) + tail;
      RawRowsAppend(a, init, metrics);
      AppendAssociative(RawRows(a, metrics), RawRows(init, metrics), tail);
    }
  }

  /** Raw mode: the row count is the sum over entries of their decoded members
      (a record in several groups yields several rows), and the rows of entry
      `j` follow those of the entries before it, in member order, tagged with
      the entry key and carrying the literal field values. */
  lemma RawRowsLayout(grouped: seq<GroupEntry>, metrics: seq<Field>, j: int, k: int)
    requires 0 <= j < |grouped| && 0 <= k < |Bags(grouped[j].items)|
    ensures |ChartData(grouped, metrics, false)| == MemberTotal(grouped)
    ensures MemberTotal(grouped[..j]) + k < MemberTotal(grouped)
    ensures ChartData(grouped, metrics, false)[MemberTotal(grouped[..j]) + k]
            == RawRow(grouped[j].key, ProjectRecord(Bags(grouped[j].items)[k], metrics))
  {
    var before := RawRows(grouped[..j], metrics);
    var here := GroupRows(grouped[j].key, grouped[j].items, metrics);
    var after := RawRows(grouped[j + 1..], metrics);
    assert ChartData(grouped, metrics, false) == before + here + after by {
      RawRowsSplit(grouped, metrics, j);
    }
    IndexInMiddle(before, here, after, k);
  }

  lemma AppendAssociative<T>(a: seq<T>, b: seq<T>, c: seq<T>)
    ensures (a + b) + c == a + (b + c)
  {
  }

  lemma IndexInMiddle<T>(a: seq<T>, b: seq<T>, c: seq<T>, k: int)
    requires 0 <= k < |b|
    ensures (a + b + c)[|a| + k] == b[k]
  {
  }

  lemma RawRowsSplit(grouped: seq<GroupEntry>, metrics: seq<Field>, j: int)
    requires 0 <= j < |grouped|
    ensures RawRows(grouped, metrics)
            == RawRows(grouped[..j], metrics)
               + GroupRows(grouped[j].key, grouped[j].items, metrics)
               + RawRows(grouped[j + 1..], metrics)
  {
    var before, here, after := grouped[..j], [grouped[j]], grouped[j + 1..];
    assert grouped == before + here + after;
    RawRowsAppend(before + here, after, metrics);
    RawRowsAppend(before, here, metrics);
    assert here[..0] == [];
  }

  /** The mean of numbers that all lie in `[lo, hi]` lies in `[lo, hi]`. */
  lemma MeanWithinRange(values: seq<Value>, lo: real, hi: real)
    requires |values| > 0
    requires forall i :: 0 <= i < |values| ==> values[i].Num? && lo <= values[i].n <= hi
    ensures lo <= Mean(values) <= hi
  {
    SumBounds(values, lo, hi);
    DivisionBounds(Sum(values), |values| as real, lo, hi);
  }

  lemma DivisionBounds(s: real, n: real, lo: real, hi: real)
    requires n > 0.0 && lo * n <= s <= hi * n
    ensures lo <= s / n <= hi
  {
    assert s / n * n == s;
  }

  lemma {:induction false} SumBounds(values: seq<Value>, lo: real, hi: real)
    requires forall i :: 0 <= i < |values| ==> values[i].Num? && lo <= values[i].n <= hi
    ensures lo * (|values| as real) <= Sum(values) <= hi * (|values| as real)
  {
    if values != [] {
      var init, last := values[..|values| - 1], values[|values| - 1];
      assert forall i :: 0 <= i < |init| ==> init[i] == values[i];
      SumBounds(init, lo, hi);
      assert Sum(values) == Sum(init) + last.n;
      StepBounds(Sum(init), last.n, |init| as real, lo, hi);
    }
  }

  lemma StepBounds(s: real, x: real, n: real, lo: real, hi: real)
    requires lo * n <= s <= hi * n && lo <= x <= hi
    ensures lo * (n + 1.0) <= s + x <= hi * (n + 1.0)
  {
    assert lo * (n + 1.0) == lo * n + lo;
    assert hi * (n + 1.0) == hi * n + hi;
  }

  // ---------------------------------------------------------------- the loops

  /** The aggregated branch for one group: write one key per metric. */
  method AggregateGroup(items: seq<DataItem>, metrics: seq<Field>) returns (stats: map<Field, real>)
    ensures stats == AggregateStats(items, metrics)
  {
    stats := map[];
    for i := 0 to |metrics|
      invariant stats == AggregateStats(items, metrics[..i])
    {
      assert metrics[..i + 1][..i] == metrics[..i];
      var metric := metrics[i];
      match MetricStat(items, metric)
      case Some(value) =>
        stats := stats[metric := value];
      case None =>
    }
    assert metrics[..|metrics|] == metrics;
  }

  /** The raw `entry` of one record: copy the field value of every metric. */
  method ProjectMetrics(bag: PropertyBag, metrics: seq<Field>) returns (entry: map<Field, Value>)
    ensures entry == ProjectRecord(bag, metrics)
  {
    entry := map[];
    for i := 0 to |metrics|
      invariant entry == ProjectRecord(bag, metrics[..i])
    {
      assert metrics[..i + 1][..i] == metrics[..i];
      entry := entry[metrics[i] := Lookup(bag, metrics[i])];
    }
    assert metrics[..|metrics|] == metrics;
  }

  /** The raw branch for one group: push one row per decoded member. */
  method FlattenGroup(key: string, items: seq<DataItem>, metrics: seq<Field>) returns (rows: seq<Row>)
    ensures rows == GroupRows(key, items, metrics)
  {
    rows := [];
    for k := 0 to |items|
      invariant rows == GroupRows(key, items[..k], metrics)
    {
      assert items[..k + 1][..k] == items[..k];
      var item := items[k];
      if item.parsedCustomProperties.Some? {
        var entry := ProjectMetrics(item.parsedCustomProperties.value, metrics);
        rows := rows + [RawRow(key, entry)];
      }
    }
    assert items[..|items|] == items;
  }

  /** The aggregated branch: one row per group entry. */
  method AggregateAll(grouped: seq<GroupEntry>, metrics: seq<Field>) returns (rows: seq<Row>)
    ensures rows == AggregatedRows(grouped, metrics)
  {
    rows := [];
    for j := 0 to |grouped|
      invariant rows == AggregatedRows(grouped[..j], metrics)
    {
      var stats := AggregateGroup(grouped[j].items, metrics);
      AggregatedRowsSnoc(grouped[..j], grouped[j], metrics);
      assert grouped[..j + 1] == grouped[..j] + [grouped[j]];
      rows := rows + [AggregatedRow(grouped[j].key, stats)];
    }
    assert grouped[..|grouped|] == grouped;
  }

  lemma AggregatedRowsSnoc(grouped: seq<GroupEntry>, e: GroupEntry, metrics: seq<Field>)
    ensures AggregatedRows(grouped + [e], metrics)
            == AggregatedRows(grouped, metrics) + [AggregatedRow(e.key, AggregateStats(e.items, metrics))]
  {
  }

  /** The raw branch: the rows of every group, group by group. */
  method FlattenAll(grouped: seq<GroupEntry>, metrics: seq<Field>) returns (rows: seq<Row>)
    ensures rows == RawRows(grouped, metrics)
  {
    rows := [];
    for j := 0 to |grouped|
      invariant rows == RawRows(grouped[..j], metrics)
    {
      assert grouped[..j + 1][..j] == grouped[..j];
      var groupRows := FlattenGroup(grouped[j].key, grouped[j].items, metrics);
      rows := rows + groupRows;
    }
    assert grouped[..|grouped|] == grouped;
  }

  /** `prepareChartData`. */
  method PrepareChartData(grouped: seq<GroupEntry>, metrics: seq<Field>, isAggregated: bool)
    returns (rows: seq<Row>)
    ensures rows == ChartData(grouped, metrics, isAggregated)
  {
    if isAggregated {
      rows := AggregateAll(grouped, metrics);
    } else {
      rows := FlattenAll(grouped, metrics);
    }
  }
}
