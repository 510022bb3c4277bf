# Data voyage visualizer: the query pipeline and its editors

This project models the logic of a small analytics dashboard. The dashboard
ingests a batch of app-usage records. Each record carries a serialized
`customproperties` blob with five fields: `inventoryCount`, `itemsInCart` and
`time` are numbers, and `isPriceListApplied` and `isOfferApplied` are
booleans. The dashboard runs the batch through a fixed pipeline:

1. **decode** every blob into a typed property bag (`parseData`);
2. **filter** the decoded records by the base conditions (`filterDataByConditions`),
   using the operators `gt`, `lt`, `gte`, `lte`, `eq` and `neq` with JavaScript's
   `typeof` tests, `Number(...)` coercion and strict equality;
3. **group** what is left into possibly overlapping comparison groups, keyed
   by group id (`groupDataByComparisons`);
4. **summarise** the result (`prepareChartData`). In the aggregated view there
   is one row per group: the mean of each numeric metric and the percentage
   of true values of each boolean metric. In the raw view there is one row
   per (group, member) pair, holding the literal field values.

Around the pipeline sit three pieces of session state:

- the dashboard configuration: metrics, base conditions, comparison groups
  and view flags, with the `processData` composition;
- the condition editor's draft;
- the comparison editor's draft.

The model is split into the following modules:

| file | module | contents |
|---|---|---|
| `types.dfy` | `Types` | the shapes of `src/lib/types.ts` |
| `seqs.dfy` | `Seqs` | `Array.prototype.filter` and the subsequence relation |
| `data.dfy` | `Data` | decode, filter, group, and the option tables |
| `chart.dfy` | `Chart` | `prepareChartData`: specification functions, properties, and the loops as methods |
| `dashboard.dfy` | `Session` | the `Dashboard` class and `processData` |
| `condition_editor.dfy` | `ConditionEditor` | the `ConditionBuilder` class and the label maps |
| `comparison_editor.dfy` | `ComparisonEditor` | the `ComparisonBuilder` class |
| `sample.dfy` | `Sample` | the five shipped sample records and one end-to-end run over them |

Some modelling choices:

- **Values.** A value is `Num(real) | Bool(bool)`. Numbers are reals because
  the comparison editor's number input and the means can both be fractional.
- **The decoder.** `JSON.parse` plus the cast to `CustomProperties` is an
  abstract parameter, `decode: string -> Option<PropertyBag>`. A result of
  `None` stands for the thrown-and-caught parse error.
- **The grouped record.** The `Record<string, DataItem[]>` that grouping fills
  is an ordered association list. Assigning an existing key keeps the key's
  position and replaces its value, as a JavaScript object does.
- **Loops.** Where the source works through a loop (the `forEach` that fills
  the groups, the per-metric loop of the aggregated branch, the nested `push`
  loops of the raw branch), the model has a method with that loop. Each such
  method is proved equal to a specification function, and the properties
  are proved about that function.
- **State.** The React state of each component is a class whose methods
  change only the fields the matching handler rewrites. Fresh ids, which the
  source draws at random, are method parameters.

Three behaviours of the source are easy to misread, and the model keeps them:

- **The default row.** With no comparison groups, `processData` groups by the
  implicit group `{ id: 'all', name: 'All Data' }`
  (src/components/Dashboard.tsx:123), and each aggregated row is named after
  the group's id (src/lib/data.ts:194). The single row is therefore named
  `all`, and the name "All Data" never shows up.
- **Empty groups.** The per-metric branch has no `else`
  (src/lib/data.ts:202-209), so a group with no decoded members has no key
  at all for a metric; it is not set to 0.
- **Undecoded records.** The filter's first test (src/lib/data.ts:104) drops
  records without a decoded bag, even when the condition list is empty.

## Model

| member | source | states |
|---|---|---|
| Types.Lookup | src/lib/types.ts:2-8 | reading a field of a bag gives a value whose runtime type is the field's declared type |
| Types.ToNumber | src/lib/data.ts:110-127 | `Number(v)` is the number itself, 1 for `true` and 0 for `false` |
| Types.FieldKeyInjective | src/lib/types.ts:2-8 | distinct fields have distinct blob keys, so a key names at most one field |
| Data.ParseData | src/lib/data.ts:86-99 | decoding never fails and keeps length and order; every raw field of each record is kept; a record whose blob decodes gains exactly the decoded bag; a record whose blob does not decode comes back unchanged |
| Data.Holds | src/lib/data.ts:107-129 | ordering operators are false on boolean fields; on a numeric field `gt`, `lt`, `gte` and `lte` compare the field with `Number(value)`; `eq` on a numeric field compares with `Number(value)`, so `true` counts as 1; a boolean field against a number is never `eq` and always `neq`; boolean against boolean is typed equality |
| Data.NeqIsNotEq | src/lib/data.ts:114-127 | `neq` holds exactly when `eq` does not, for every field, value and bag |
| Data.NonStrictIsStrictOrEq | src/lib/data.ts:110-118 | on a numeric field `gte` is `gt` or `eq`, and `lte` is `lt` or `eq` |
| Data.AllHold | src/lib/data.ts:106-130 | `every` holds exactly when each condition in the list holds |
| Seqs.Filter | src/lib/data.ts:103 | `filter` returns no more elements than it was given; an element is in the result exactly when it is in the input and passes the test |
| Seqs.FilterMultiplicity | src/lib/data.ts:103 | `filter` keeps each element that passes exactly as many times as it occurs, and drops every copy of one that fails |
| Data.FilterDataByConditions | src/lib/data.ts:102-132 | the result is an order-preserving subsequence of the input; every kept record has a bag meeting every condition; every such record of the input is kept, as many times as it occurs there |
| Data.FilterWithoutConditions | src/lib/data.ts:103-106 | with no conditions the filter returns exactly the decoded records, in order, and drops the undecoded ones |
| Data.ConditionOrderIrrelevant | src/lib/data.ts:103-106 | two condition lists with the same elements and multiplicities filter identically |
| Data.GroupMembers | src/lib/data.ts:142-149 | a group's members are an order-preserving subsequence of the data; a record is a member exactly when it has a bag strictly equal to every constraint, and a member occurs as many times as in the data |
| Data.UnconstrainedGroupHoldsAll | src/lib/data.ts:142-149 | a group without constraints holds every decoded record, in order |
| Data.RecordInSeveralGroups | src/lib/data.ts:141-150 | groups may overlap: a record meeting two groups' constraints is a member of both |
| Data.Put | src/lib/data.ts:142 | assigning `record[key]` keeps keys distinct, makes `key` map to the new items and leaves every other key's lookup unchanged; a new key is appended at the end; an existing key keeps its position |
| Data.Grouped | src/lib/data.ts:139-152 | the dictionary after the `forEach` has pairwise distinct keys |
| Data.GroupDataByComparisons | src/lib/data.ts:135-153 | the `forEach` loop yields exactly the dictionary `Grouped` specifies |
| Data.GroupedLookup | src/lib/data.ts:141-150 | each group id is a key holding the members of the last group with that id, so a later group with the same id replaces an earlier one; an id of no group is absent |
| Data.GroupedDistinctIds | src/lib/data.ts:139-152 | with pairwise distinct ids there is exactly one entry per group, in group order, keyed by the group's id and holding its members |
| Data.PropertyOptions | src/lib/data.ts:156-164 | five options with pairwise distinct fields, each tagged with its field's declared type |
| Data.PropertyOptionsCoverFields | src/lib/data.ts:156-164 | every field appears among the property options |
| Data.OperatorOptions | src/lib/data.ts:167-183 | for `'boolean'` exactly `[eq, neq]`; for `'number'` every operator; no operator twice; an operator is offered exactly when the type is numeric or the operator is an equality test |
| Data.OfferedOperatorCanHold | src/lib/data.ts:107-129 | every offered operator holds for some field of the type, some value and some bag; with the first postcondition of `Holds`, the offered operators are exactly those that can hold on the type |
| Chart.BagsAreDecoded | src/lib/data.ts:197-199 | the bags a group's metrics are read from are those of its decoded records, one per record, in record order |
| Chart.FieldValues | src/lib/data.ts:197-199 | the values of one metric, one per decoded member, in member order |
| Chart.SumAppend | src/lib/data.ts:203 | the left-to-right `reduce` sum of a list is the sum of its first part plus the sum of the rest, for any split |
| Chart.Mean | src/lib/data.ts:203-204 | the mean times the number of values is their sum |
| Chart.TrueCount | src/lib/data.ts:207 | the number of values that are exactly `true`: at most the number of values, and equal to how many times `true` occurs among them |
| Chart.Percentage | src/lib/data.ts:205-208 | the percentage of true values lies in [0, 100], and times the count it equals 100 times the number of true values |
| Chart.MetricStat | src/lib/data.ts:196-209 | a metric gets a value exactly when the group has a decoded member: the mean for a numeric metric, the percentage of true values for a boolean one |
| Chart.AggregateStats | src/lib/data.ts:194-212 | a group's result has a key for a metric exactly when the metric is listed and the group has a decoded member, and that key holds the metric's statistic |
| Chart.SingleMetricStats | src/lib/data.ts:194-212 | with one metric, the result holds that metric's statistic, or nothing for a group without decoded members |
| Chart.MeanWithinRange | src/lib/data.ts:202-204 | the mean of numbers that all lie in [lo, hi] lies in [lo, hi] |
| Chart.ProjectRecord | src/lib/data.ts:221-227 | a raw entry has exactly the metric keys, each holding the record's literal field value |
| Chart.GroupRows | src/lib/data.ts:219-231 | one raw row per decoded member, in member order, tagged with the group key |
| Chart.RawRows | src/lib/data.ts:216-234 | the raw row count is the sum over group entries of their decoded members |
| Chart.AggregatedRowAt | src/lib/data.ts:191-213 | the aggregated view has exactly one row per group entry, named after the entry's key; a metric is present exactly when the group has decoded members; a numeric metric holds the mean; a boolean metric lies in [0, 100] |
| Chart.RawRowsAppend | src/lib/data.ts:218-232 | raw rows come group by group: the rows of two runs of entries are the rows of the first followed by those of the second |
| Chart.RawRowsLayout | src/lib/data.ts:214-235 | row number (members of earlier entries) + k of the raw view is the k-th decoded member of entry j, tagged with the entry's key and carrying the literal field values; the row count counts a record once per group holding it |
| Chart.AggregateGroup | src/lib/data.ts:196-210 | the per-metric loop writes exactly the keys `AggregateStats` specifies |
| Chart.ProjectMetrics | src/lib/data.ts:225-227 | the per-metric loop builds exactly the raw entry `ProjectRecord` specifies |
| Chart.FlattenGroup | src/lib/data.ts:219-231 | the per-member loop pushes exactly the rows `GroupRows` specifies |
| Chart.AggregateAll | src/lib/data.ts:193-213 | the aggregated branch yields exactly one row per entry, as `AggregatedRows` specifies |
| Chart.FlattenAll | src/lib/data.ts:216-234 | the nested loops of the raw branch yield exactly `RawRows` |
| Chart.PrepareChartData | src/lib/data.ts:186-236 | `prepareChartData` returns the rows of the mode it is asked for |
| Session.WithoutId | src/components/Dashboard.tsx:49-54 | removing by id keeps an order-preserving subsequence; it removes every entry with that id and keeps every other entry, as many times as it occurs |
| Session.FilterKeepsFieldsDistinct | src/components/Dashboard.tsx:49-54 | removing metrics keeps their fields pairwise distinct |
| Session.Merge | src/components/Dashboard.tsx:69 | `{ ...condition, ...updates }`: each key the update carries wins, every other key is kept |
| Session.UpdateConditions | src/components/Dashboard.tsx:65-72 | updating keeps the length; entries with the id are merged with the update; all others are unchanged |
| Session.UpdateWithoutEffect | src/components/Dashboard.tsx:65-72 | an empty update, or an id that no condition has, leaves the list unchanged |
| Session.MetricFields | src/components/Dashboard.tsx:129 | the metric list handed to the chart stage is the configured fields, in order |
| Session.DefaultGrouping | src/components/Dashboard.tsx:119-124 | the implicit group `all` holds every filtered record |
| Session.WithoutGroups | src/components/Dashboard.tsx:114-131 | with no comparison groups the aggregated view is the single row `all` over all filtered records, and the raw view has one row per filtered record |
| Session.Dashboard.constructor | src/components/Dashboard.tsx:17-25 | the session starts with no metrics, conditions or groups, chart view, bar chart, aggregation on and no rows |
| Session.Dashboard.HandleAddMetric | src/components/Dashboard.tsx:31-46 | a field already among the metrics is refused and nothing changes; otherwise exactly one metric with the fresh id is appended; fields stay pairwise distinct; no other configuration field changes |
| Session.Dashboard.HandleRemoveMetric | src/components/Dashboard.tsx:49-54 | every metric with the id is removed and the rest keep their order; fields stay distinct |
| Session.Dashboard.HandleAddCondition | src/components/Dashboard.tsx:57-62 | exactly one condition, the draft with the fresh id, is appended; nothing else changes |
| Session.Dashboard.HandleUpdateCondition | src/components/Dashboard.tsx:65-72 | the conditions become the merged list; nothing else changes |
| Session.Dashboard.HandleRemoveCondition | src/components/Dashboard.tsx:75-80 | every condition with the id is removed, the rest keep their order |
| Session.Dashboard.HandleAddComparison | src/components/Dashboard.tsx:83-88 | exactly one group, the draft with the fresh id, is appended |
| Session.Dashboard.HandleRemoveComparison | src/components/Dashboard.tsx:91-96 | every group with the id is removed, the rest keep their order |
| Session.Dashboard.HandleViewTypeChange | src/components/Dashboard.tsx:99-101 | only the view type changes |
| Session.Dashboard.HandleChartTypeChange | src/components/Dashboard.tsx:104-106 | only the chart type changes |
| Session.Dashboard.HandleAggregationChange | src/components/Dashboard.tsx:109-111 | only the aggregation flag changes |
| Session.Dashboard.ProcessData | src/components/Dashboard.tsx:114-133 | the rows shown are filter, then group (with the implicit group `all` when none is defined), then prepare, over the current configuration |
| ConditionEditor.DefaultValue | src/components/ConditionBuilder.tsx:35 | a dropped field starts with a value of its own type: `false` for booleans, 0 for numbers |
| ConditionEditor.DefaultOperator | src/components/ConditionBuilder.tsx:36 | the starting operator is `eq` for boolean fields and `gt` for numeric ones; either way it is one the select offers for the type |
| ConditionEditor.PropertyLabel | src/components/ConditionBuilder.tsx:50-59 | a known blob key gets its option's caption; any other string comes back unchanged |
| ConditionEditor.OperatorLabel | src/components/ConditionBuilder.tsx:61-71 | each operator gets one of the six one-character symbols: `gt` and `gte` and only they get a sign opening to the right (`>`, `≥`), `gt` and `lt` and only they a strict sign (`>`, `<`), so each ordering operator gets its own inequality sign; `eq` and only it gets `=`, `neq` and only it `≠` |
| ConditionEditor.OperatorLabelInjective | src/components/ConditionBuilder.tsx:61-71 | distinct operators get distinct symbols |
| ConditionEditor.OperatorLabelOnto | src/components/ConditionBuilder.tsx:61-71 | every one of the six symbols labels some operator |
| ConditionEditor.WellTypedBooleanCondition | src/components/ConditionBuilder.tsx:102-115 | a condition the editor can emit on a boolean field uses `eq` or `neq` with a boolean value, and holds exactly as typed equality or inequality |
| ConditionEditor.ConditionBuilder.constructor | src/components/ConditionBuilder.tsx:27-30 | the draft starts empty, with `gt`, 0 and type number |
| ConditionEditor.ConditionBuilder.HandleDrop | src/components/ConditionBuilder.tsx:32-37 | dropping sets field and type and resets value and operator to the defaults of the type |
| ConditionEditor.ConditionBuilder.SetDraftOperator | src/components/ConditionBuilder.tsx:94-108 | only an operator offered for the current type can be chosen |
| ConditionEditor.ConditionBuilder.SetDraftValue | src/components/ConditionBuilder.tsx:110-129 | the switch or slider sets a value of the current type |
| ConditionEditor.ConditionBuilder.HandleAddCondition | src/components/ConditionBuilder.tsx:39-48 | with no field nothing is emitted; otherwise the draft is emitted and only the field is cleared; what is emitted is always well typed |
| ComparisonEditor.ComparisonBuilder.constructor | src/components/ComparisonBuilder.tsx:23-27 | the draft starts with no name, no constraints, no property, type boolean and `false` |
| ComparisonEditor.ComparisonBuilder.HandleDrop | src/components/ComparisonBuilder.tsx:29-33 | dropping sets property and type and resets the value to the default of the type |
| ComparisonEditor.ComparisonBuilder.SetGroupName | src/components/ComparisonBuilder.tsx:75-80 | the name input sets only the name |
| ComparisonEditor.ComparisonBuilder.SetPropertyValue | src/components/ComparisonBuilder.tsx:97-111 | the switch or number input sets a value of the property's type |
| ComparisonEditor.ComparisonBuilder.HandleAddProperty | src/components/ComparisonBuilder.tsx:35-43 | with a property and a name, the constraint on that field is set, overwriting an earlier one, other keys are kept and the property is cleared; otherwise nothing changes |
| ComparisonEditor.ComparisonBuilder.HandleAddGroup | src/components/ComparisonBuilder.tsx:45-54 | with a name and at least one constraint, the group is emitted with that name and a copy of the constraints, then name and constraints are reset; otherwise nothing changes; every emitted group has a name and at least one well-typed constraint |
| ComparisonEditor.MistypedConstraintEmptiesGroup | src/lib/data.ts:145-148 | a constraint whose value has the wrong type for its field empties the group, since membership is strict equality |
| Sample.SampleData | src/lib/data.ts:4-50 | the shipped batch is five undecoded records |
| Sample.SampleDecoded | src/lib/data.ts:86-99 | decoding the shipped batch gives five records carrying the bags their blobs spell out |
| Sample.SampleFilter | src/lib/data.ts:102-132 | the condition `itemsInCart > 15` keeps the first, second and fifth sample records (18, 19 and 22) |
| Sample.ThreeRecordMean | src/lib/data.ts:202-204 | the mean `itemsInCart` of 18, 19 and 22 is 59/3 |
| Sample.SampleBatchAverage | src/components/Dashboard.tsx:114-131 | with `itemsInCart > 15`, no groups and the single metric `itemsInCart`, the aggregated view of the decoded sample is one row `all` holding 59/3 |
| Sample.SampleItemsInCartAverage | src/lib/data.ts:4-50 | the same run, starting from the shipped records and any decoder that reads their blobs faithfully |

## Left out

- JSON decoding is not modelled. `JSON.parse` and the unchecked cast to `CustomProperties` are an abstract decoder parameter.
- Blobs that parse but lack a key or give it another type cannot be represented. The decoded bag is a typed record, so `typeof` never disagrees with the declared type inside the model.
- Comparison group constraints are keyed by the `Field` enum, not by arbitrary strings. Only dragged property options can create a key in the source.
- The random batch is not modelled. `generateMoreData` and `initialData` use `Math.random`, so `processData` is modelled over any decoded batch.
- `generateId` is random. Fresh ids are parameters of the handlers.
- Numbers are exact reals, not IEEE doubles. There is no rounding, NaN or infinity.
- `toFixed` display formatting is not modelled.
- The slider's 0..500 integer range is not modelled. Any number of the right type is accepted.
- Key order in `Object.entries` is assumed to be insertion order. JavaScript lists integer-like keys first, and that is not modelled.
- Toasts, `useEffect` scheduling and re-rendering are not modelled. The refusal toast of `handleAddMetric` is the `false` result of `HandleAddMetric`.
- Rendering and drag-and-drop plumbing are not modelled. A drop is modelled as a handler call with one of the property options.
- The components' duplicate `getPropertyLabel` (src/components/ComparisonBuilder.tsx:56-65) is not modelled separately; it is the same map as `PropertyLabel`.
- `Partial<Condition>` updates cannot carry a key that is present but set to `undefined`.
- The `default` branches of the operator switch and of `getOperatorLabel` are left out. The operator type is closed, so they are unreachable.
