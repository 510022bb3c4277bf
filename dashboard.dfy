/** The session configuration held by the dashboard and the `processData`
    composition of the pipeline (src/components/Dashboard.tsx). Each
    `setConfig(prev => ...)` handler becomes a method that changes only the
    configuration field it rewrites; fresh ids, which the source draws at
    random, are passed in. */
module Session {
  import opened Types
  import opened Seqs
  import opened Data
  import opened Chart

  // ---------------------------------------------------------------- list operations

  /** `xs.filter(x => x.id !== id)` for any record type with an id. */
  function WithoutId<T>(xs: seq<T>, idOf: T -> string, id: string): (r: seq<T>)
    ensures IsSubsequence(r, xs)
    ensures forall x :: x in r ==> x in xs && idOf(x) != id
    ensures forall x :: x in xs && idOf(x) != id ==> x in r
    ensures forall x :: x in xs ==> multiset(r)[x] == if idOf(x) != id then multiset(xs)[x] else 0
  {
    FilterIsSubsequence(IdIsNot(idOf, id), xs);
    FilterMultiplicity(IdIsNot(idOf, id), xs);
    Filter(IdIsNot(idOf, id), xs)
  }

  function IdIsNot<T>(idOf: T -> string, id: string): T -> bool
  {
    x => idOf(x) != id
  }

  function MetricId(m: MetricConfig): string { m.id }

  function ConditionId(c: Condition): string { c.id }

  function GroupId(g: ComparisonGroup): string { g.id }

  /** `metrics.some(metric => metric.field === field)`. */
  predicate HasField(metrics: seq<MetricConfig>, field: Field)
  {
    exists i :: 0 <= i < |metrics| && metrics[i].field == field
  }

  predicate FieldsDistinct(metrics: seq<MetricConfig>)
  {
    forall i, j :: 0 <= i < j < |metrics| ==> metrics[i].field != metrics[j].field
  }

  /** Dropping entries from a list whose fields are pairwise distinct keeps them distinct. */
  lemma {:induction false} FilterKeepsFieldsDistinct(p: MetricConfig -> bool, metrics: seq<MetricConfig>)
    requires FieldsDistinct(metrics)
    ensures FieldsDistinct(Filter(p, metrics))
  {
    if metrics != [] {
      var init, last := metrics[..|metrics| - 1], metrics[|metrics| - 1];
      FilterKeepsFieldsDistinct(p, init);
      var kept := Filter(p, init);
      forall x | x in kept
        ensures x.field != last.field
      {
        var i :| 0 <= i < |init| && init[i] == x;
        assert metrics[i] == x;
      }
    }
  }

  /** `Partial<Condition>`: the keys an update carries. */
  datatype ConditionPatch = ConditionPatch(
    field: Option<Field>, operator: Option<Operator>, value: Option<Value>, id: Option<string>)

  /** `{ ...condition, ...updates }`: every key the update carries wins. */
  function Merge(c: Condition, patch: ConditionPatch): (r: Condition)
    ensures r.field == (if patch.field.Some? then patch.field.value else c.field)
    ensures r.operator == (if patch.operator.Some? then patch.operator.value else c.operator)
    ensures r.value == (if patch.value.Some? then patch.value.value else c.value)
    ensures r.id == (if patch.id.Some? then patch.id.value else c.id)
  {
    Condition(
      match patch.field case Some(f) => f case None => c.field,
      match patch.operator case Some(op) => op case None => c.operator,
      match patch.value case Some(v) => v case None => c.value,
      match patch.id case Some(i) => i case None => c.id)
  }

  /** `conditions.map(c => c.id === id ? { ...c, ...updates } : c)`. */
  function UpdateConditions(conditions: seq<Condition>, id: string, patch: ConditionPatch): (r: seq<Condition>)
    ensures |r| == |conditions|
    ensures forall i :: 0 <= i < |conditions| && conditions[i].id != id ==> r[i] == conditions[i]
    ensures forall i :: 0 <= i < |conditions| && conditions[i].id == id ==> r[i] == Merge(conditions[i], patch)
  {
    seq(|conditions|, i requires 0 <= i < |conditions| =>
      if conditions[i].id == id then Merge(conditions[i], patch) else conditions[i])
  }

  /** An update that carries no key, or names an id no condition has, changes nothing. */
  lemma UpdateWithoutEffect(conditions: seq<Condition>, id: string, patch: ConditionPatch)
    requires patch == ConditionPatch(None, None, None, None) || forall c :: c in conditions ==> c.id != id
    ensures UpdateConditions(conditions, id, patch) == conditions
  {
    var r := UpdateConditions(conditions, id, patch);
    forall i | 0 <= i < |conditions|
      ensures r[i] == conditions[i]
    {
      assert conditions[i] in conditions;
    }
  }

  // ---------------------------------------------------------------- processData

  /** The implicit group used when none is defined. */
  function DefaultGroup(): ComparisonGroup
  {
    ComparisonGroup("all", "All Data", map[])
  }

  function EffectiveGroups(groups: seq<ComparisonGroup>): seq<ComparisonGroup>
  {
    if |groups| > 0 then groups else [DefaultGroup()]
  }

  /** `config.metrics.map(m => m.field)`. */
  function MetricFields(metrics: seq<MetricConfig>): (r: seq<Field>)
    ensures |r| == |metrics|
    ensures forall i :: 0 <= i < |metrics| ==> r[i] == metrics[i].field
  {
    seq(|metrics|, i requires 0 <= i < |metrics| => metrics[i].field)
  }

  /** The rows `processData` hands to the visualisation: filter, then group,
      then prepare. */
  function ProcessedRows(
    data: seq<DataItem>, conditions: seq<Condition>, groups: seq<ComparisonGroup>,
    metrics: seq<MetricConfig>, isAggregated: bool): seq<Row>
  {
    var filtered := FilterDataByConditions(data, conditions);
    ChartData(Grouped(filtered, EffectiveGroups(groups)), MetricFields(metrics), isAggregated)
  }

  lemma {:induction false} BagsOfDecoded(items: seq<DataItem>)
    requires forall x :: x in items ==> x.parsedCustomProperties.Some?
    ensures |Bags(items)| == |items|
  {
    if items != [] {
      var init := items[..|items| - 1];
      assert forall x :: x in init ==> x in items;
      BagsOfDecoded(init);
    }
  }

  /** The implicit group takes every record the filter kept. */
  lemma DefaultGrouping(filtered: seq<DataItem>)
    requires forall x :: x in filtered ==> x.parsedCustomProperties.Some?
    ensures Grouped(filtered, [DefaultGroup()]) == [GroupEntry("all", filtered)]
  {
    FilterCongruent(InGroupFn(map[]), (x: DataItem) => true, filtered);
    FilterAll((x: DataItem) => true, filtered);
    assert GroupMembers(filtered, DefaultGroup()) == filtered;
    assert [DefaultGroup()][..0] == [];
  }

  /** Without comparison groups every filtered record lands in the single group
      keyed 'all': one aggregated row named 'all', or one raw row per filtered
      record. */
  lemma WithoutGroups(data: seq<DataItem>, conditions: seq<Condition>, metrics: seq<MetricConfig>)
    ensures var filtered := FilterDataByConditions(data, conditions);
            ProcessedRows(data, conditions, [], metrics, true)
            == [AggregatedRow("all", AggregateStats(filtered, MetricFields(metrics)))]
    ensures |ProcessedRows(data, conditions, [], metrics, false)|
            == |FilterDataByConditions(data, conditions)|
  {
    var filtered := FilterDataByConditions(data, conditions);
    assert EffectiveGroups([]) == [DefaultGroup()];
    DefaultGrouping(filtered);
    var grouped := [GroupEntry("all", filtered)];
    BagsOfDecoded(filtered);
    assert grouped[..0] == [];
    assert MemberTotal(grouped) == |filtered|;
  }

  // ---------------------------------------------------------------- the session state

  class Dashboard {
    var metrics: seq<MetricConfig>
    var baseConditions: seq<Condition>
    var comparisonGroups: seq<ComparisonGroup>
    var viewType: ViewType
    var chartType: ChartType
    var isAggregated: bool
    var visualizationData: seq<Row>

    /** No field is selected as a metric twice. */
    ghost predicate Valid()
      reads this
    {
      FieldsDistinct(metrics)
    }

    constructor ()
      ensures Valid()
      ensures metrics == [] && baseConditions == [] && comparisonGroups == []
      ensures viewType == ChartView && chartType == BarChart && isAggregated
      ensures visualizationData == []
    {
      metrics := [];
      baseConditions := [];
      comparisonGroups := [];
      viewType := ChartView;
      chartType := BarChart;
      isAggregated := true;
      visualizationData := [];
    }

    /** `handleAddMetric`: refused (the toast branch) when the field is already
        a metric, otherwise appended with a fresh id. */
    method HandleAddMetric(field: Field, freshId: string) returns (added: bool)
      requires Valid()
      modifies this`metrics
      ensures Valid()
      ensures added <==> !HasField(old(metrics), field)
      ensures metrics == if added then old(metrics) + [MetricConfig(freshId, field)] else old(metrics)
    {
      if exists i :: 0 <= i < |metrics| && metrics[i].field == field {
        added := false;
        return;
      }
      metrics := metrics + [MetricConfig(freshId, field)];
      added := true;
    }

    /** `handleRemoveMetric`: drop every metric with this id. */
    method HandleRemoveMetric(id: string)
      requires Valid()
      modifies this`metrics
      ensures Valid()
      ensures metrics == WithoutId(old(metrics), MetricId, id)
    {
      metrics := WithoutId(metrics, MetricId, id);
      FilterKeepsFieldsDistinct(IdIsNot(MetricId, id), old(metrics));
    }

    /** `handleAddCondition`: append the draft with a fresh id. */
    method HandleAddCondition(draft: ConditionDraft, freshId: string)
      modifies this`baseConditions
      ensures baseConditions == old(baseConditions) + [Condition(draft.field, draft.operator, draft.value, freshId)]
    {
      baseConditions := baseConditions + [Condition(draft.field, draft.operator, draft.value, freshId)];
    }

    /** `handleUpdateCondition`: merge the update into every condition with this id. */
    method HandleUpdateCondition(id: string, patch: ConditionPatch)
      modifies this`baseConditions
      ensures baseConditions == UpdateConditions(old(baseConditions), id, patch)
    {
      baseConditions := UpdateConditions(baseConditions, id, patch);
    }

    /** `handleRemoveCondition`. */
    method HandleRemoveCondition(id: string)
      modifies this`baseConditions
      ensures baseConditions == WithoutId(old(baseConditions), ConditionId, id)
    {
      baseConditions := WithoutId(baseConditions, ConditionId, id);
    }

    /** `handleAddComparison`: append the draft group with a fresh id. */
    method HandleAddComparison(draft: GroupDraft, freshId: string)
      modifies this`comparisonGroups
      ensures comparisonGroups == old(comparisonGroups) + [ComparisonGroup(freshId, draft.name, draft.conditions)]
    {
      comparisonGroups := comparisonGroups + [ComparisonGroup(freshId, draft.name, draft.conditions)];
    }

    /** `handleRemoveComparison`. */
    method HandleRemoveComparison(id: string)
      modifies this`comparisonGroups
      ensures comparisonGroups == WithoutId(old(comparisonGroups), GroupId, id)
    {
      comparisonGroups := WithoutId(comparisonGroups, GroupId, id);
    }

    method HandleViewTypeChange(v: ViewType)
      modifies this`viewType
      ensures viewType == v
    {
      viewType := v;
    }

    method HandleChartTypeChange(c: ChartType)
      modifies this`chartType
      ensures chartType == c
    {
      chartType := c;
    }

    method HandleAggregationChange(aggregated: bool)
      modifies this`isAggregated
      ensures isAggregated == aggregated
    {
      isAggregated := aggregated;
    }

    /** `processData` over the decoded batch `data`. */
    method ProcessData(data: seq<DataItem>)
      modifies this`visualizationData
      ensures visualizationData == ProcessedRows(data, baseConditions, comparisonGroups, metrics, isAggregated)
    {
      var filtered := FilterDataByConditions(data, baseConditions);
      var groups := if |comparisonGroups| > 0 then comparisonGroups else [DefaultGroup()];
      var grouped := GroupDataByComparisons(filtered, groups);
      var chartData := PrepareChartData(grouped, MetricFields(metrics), isAggregated);
      visualizationData := chartData;
    }
  }
}
