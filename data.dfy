/** The decode, filter and group stages of the pipeline and the option tables
    (src/lib/data.ts). */
module Data {
  import opened Types
  import opened Seqs

  // ---------------------------------------------------------------- decode

  /** The raw fields of a record (everything but the decoded bag) are equal. */
  predicate SameRawFields(a: DataItem, b: DataItem)
  {
    a.customproperties == b.customproperties && a.appversion == b.appversion
    && a.userid == b.userid && a.deviceid == b.deviceid
    && a.platform == b.platform && a.osversion == b.osversion
  }

  /** Decoding of one record. `decode` stands for `JSON.parse` followed by the
      cast to `CustomProperties`; `None` is the thrown-and-caught parse error,
      in which case the record is returned as it was. */
  function ParseItem(decode: string -> Option<PropertyBag>, item: DataItem): DataItem
  {
    match decode(item.customproperties)
    case Some(bag) => item.(parsedCustomProperties := Some(bag))
    case None => item
  }

  /** `parseData`: decode every record; never fails, keeps length and order. */
  function ParseData(decode: string -> Option<PropertyBag>, items: seq<DataItem>): (r: seq<DataItem>)
    ensures |r| == |items|
    ensures forall i :: 0 <= i < |items| ==> SameRawFields(r[i], items[i])
    ensures forall i :: 0 <= i < |items| && decode(items[i].customproperties).Some? ==>
              r[i].parsedCustomProperties == decode(items[i].customproperties)
    ensures forall i :: 0 <= i < |items| && decode(items[i].customproperties).None? ==> r[i] == items[i]
  {
    seq(|items|, i requires 0 <= i < |items| => ParseItem(decode, items[i]))
  }

  predicate HasBag(item: DataItem)
  {
    item.parsedCustomProperties.Some?
  }

  function HasBagFn(): DataItem -> bool
  {
    item => HasBag(item)
  }

  /** The records that carry a decoded bag, in order. */
  function DecodedItems(data: seq<DataItem>): seq<DataItem>
  {
    Filter(HasBagFn(), data)
  }

  // ---------------------------------------------------------------- conditions

  predicate IsOrdering(op: Operator)
  {
    op == Gt || op == Lt || op == Gte || op == Lte
  }

  /** Whether one condition holds of one decoded bag, with JavaScript's
      `typeof` tests, `Number(...)` coercion and strict equality. The `default`
      branch of the switch is unreachable here: the operator type is closed. */
  function Holds(c: Condition, bag: PropertyBag): (r: bool)
    // ordering operators are false on a boolean field
    ensures IsOrdering(c.operator) && KindOf(c.field) == BooleanType ==> !r
    // on a numeric field they compare with Number(value): a boolean value counts as 0 or 1
    ensures KindOf(c.field) == NumberType && c.operator == Gt ==> (r <==> Lookup(bag, c.field).n > ToNumber(c.value))
    ensures KindOf(c.field) == NumberType && c.operator == Lt ==> (r <==> Lookup(bag, c.field).n < ToNumber(c.value))
    ensures KindOf(c.field) == NumberType && c.operator == Gte ==> (r <==> Lookup(bag, c.field).n >= ToNumber(c.value))
    ensures KindOf(c.field) == NumberType && c.operator == Lte ==> (r <==> Lookup(bag, c.field).n <= ToNumber(c.value))
    // a numeric field is compared with Number(value): a boolean value counts as 0 or 1
    ensures KindOf(c.field) == NumberType && c.operator == Eq ==>
              (r <==> Lookup(bag, c.field).n == ToNumber(c.value))
    ensures KindOf(c.field) == NumberType && c.value == Bool(true) && c.operator == Eq ==>
              (r <==> Lookup(bag, c.field).n == 1.0)
    // a boolean field against a number: never equal, always unequal
    ensures KindOf(c.field) == BooleanType && c.value.Num? && c.operator == Eq ==> !r
    ensures KindOf(c.field) == BooleanType && c.value.Num? && c.operator == Neq ==> r
    // a boolean field against a boolean: typed equality
    ensures KindOf(c.field) == BooleanType && c.value.Bool? && c.operator == Eq ==>
              (r <==> Lookup(bag, c.field) == c.value)
  {
    var value := Lookup(bag, c.field);
    match c.operator
    case Gt => value.Num? && value.n > ToNumber(c.value)
    case Lt => value.Num? && value.n < ToNumber(c.value)
    case Gte => value.Num? && value.n >= ToNumber(c.value)
    case Lte => value.Num? && value.n <= ToNumber(c.value)
    case Eq =>
      if value.Bool? && c.value.Bool? then value == c.value
      else if value.Num? then value.n == ToNumber(c.value)
      else value == c.value
    case Neq =>
      if value.Bool? && c.value.Bool? then value != c.value
      else if value.Num? then value.n != ToNumber(c.value)
      else value != c.value
  }

  /** `neq` is exactly the negation of `eq`, for every field and value. */
  lemma NeqIsNotEq(field: Field, value: Value, bag: PropertyBag, id1: string, id2: string)
    ensures Holds(Condition(field, Neq, value, id1), bag) == !Holds(Condition(field, Eq, value, id2), bag)
  {
  }

  /** On a numeric field `gte` is `gt` or `eq`, and `lte` is `lt` or `eq`. */
  lemma NonStrictIsStrictOrEq(field: Field, value: Value, bag: PropertyBag, id: string)
    requires KindOf(field) == NumberType
    ensures Holds(Condition(field, Gte, value, id), bag)
            == (Holds(Condition(field, Gt, value, id), bag) || Holds(Condition(field, Eq, value, id), bag))
    ensures Holds(Condition(field, Lte, value, id), bag)
            == (Holds(Condition(field, Lt, value, id), bag) || Holds(Condition(field, Eq, value, id), bag))
  {
  }

  /** `conditions.every(...)`: evaluated front to back, stops at the first failure. */
  function AllHold(conditions: seq<Condition>, bag: PropertyBag): (r: bool)
    ensures r <==> forall c :: c in conditions ==> Holds(c, bag)
  {
    conditions == [] || (Holds(conditions[0], bag) && AllHold(conditions[1..], bag))
  }

  predicate Admits(conditions: seq<Condition>, item: DataItem)
  {
    item.parsedCustomProperties.Some? && AllHold(conditions, item.parsedCustomProperties.value)
  }

  function AdmitsFn(conditions: seq<Condition>): DataItem -> bool
  {
    item => Admits(conditions, item)
  }

  /** `filterDataByConditions`: the order-preserving subsequence of decoded
      records that satisfy every condition. */
  function FilterDataByConditions(data: seq<DataItem>, conditions: seq<Condition>): (r: seq<DataItem>)
    ensures IsSubsequence(r, data)
    ensures forall x :: x in r ==>
              x.parsedCustomProperties.Some? &&
              forall c :: c in conditions ==> Holds(c, x.parsedCustomProperties.value)
    ensures forall x :: (x in data && x.parsedCustomProperties.Some? &&
              forall c :: c in conditions ==> Holds(c, x.parsedCustomProperties.value)) ==> x in r
    ensures forall x :: x in data ==> multiset(r)[x] == if Admits(conditions, x) then multiset(data)[x] else 0
  {
    FilterIsSubsequence(AdmitsFn(conditions), data);
    FilterMultiplicity(AdmitsFn(conditions), data);
    Filter(AdmitsFn(conditions), data)
  }

  /** With no conditions the filter returns exactly the decoded records, in order
      (records without a bag are still dropped). */
  lemma FilterWithoutConditions(data: seq<DataItem>)
    ensures FilterDataByConditions(data, []) == DecodedItems(data)
  {
    FilterCongruent(AdmitsFn([]), HasBagFn(), data);
  }

  /** Reordering the condition list does not change the result: `every` is a conjunction. */
  lemma ConditionOrderIrrelevant(data: seq<DataItem>, c1: seq<Condition>, c2: seq<Condition>)
    requires multiset(c1) == multiset(c2)
    ensures FilterDataByConditions(data, c1) == FilterDataByConditions(data, c2)
  {
    forall x | x in data
      ensures AdmitsFn(c1)(x) == AdmitsFn(c2)(x)
    {
      assert forall c :: c in c1 <==> c in multiset(c1);
      assert forall c :: c in c2 <==> c in multiset(c2);
    }
    FilterCongruent(AdmitsFn(c1), AdmitsFn(c2), data);
  }

  // ---------------------------------------------------------------- groups

  /** Every constraint of a group is met with strict equality (`===`). */
  predicate MatchesAll(constraints: map<Field, Value>, bag: PropertyBag)
  {
    forall f :: f in constraints ==> Lookup(bag, f) == constraints[f]
  }

  predicate InGroup(constraints: map<Field, Value>, item: DataItem)
  {
    item.parsedCustomProperties.Some? && MatchesAll(constraints, item.parsedCustomProperties.value)
  }

  function InGroupFn(constraints: map<Field, Value>): DataItem -> bool
  {
    item => InGroup(constraints, item)
  }

  /** The members of one group: the order-preserving subsequence of decoded
      records that meet all of its constraints. */
  function GroupMembers(data: seq<DataItem>, group: ComparisonGroup): (r: seq<DataItem>)
    ensures IsSubsequence(r, data)
    ensures forall x :: x in r ==>
              x.parsedCustomProperties.Some? && MatchesAll(group.conditions, x.parsedCustomProperties.value)
    ensures forall x :: (x in data && x.parsedCustomProperties.Some? &&
              MatchesAll(group.conditions, x.parsedCustomProperties.value)) ==> x in r
    ensures forall x :: x in data ==> multiset(r)[x] == if InGroup(group.conditions, x) then multiset(data)[x] else 0
  {
    FilterIsSubsequence(InGroupFn(group.conditions), data);
    FilterMultiplicity(InGroupFn(group.conditions), data);
    Filter(InGroupFn(group.conditions), data)
  }

  /** A group without constraints holds every decoded record. */
  lemma UnconstrainedGroupHoldsAll(data: seq<DataItem>, group: ComparisonGroup)
    requires group.conditions == map[]
    ensures GroupMembers(data, group) == DecodedItems(data)
  {
    FilterCongruent(InGroupFn(group.conditions), HasBagFn(), data);
  }

  /** One key of the `Record<string, DataItem[]>` that grouping fills. */
  datatype GroupEntry = GroupEntry(key: string, items: seq<DataItem>)

  predicate DistinctKeys(d: seq<GroupEntry>)
  {
    forall i, j :: 0 <= i < j < |d| ==> d[i].key != d[j].key
  }

  /** `record[key]`, or `None` when the key is absent. */
  function Find(d: seq<GroupEntry>, key: string): (r: Option<seq<DataItem>>)
    ensures r.None? <==> forall i :: 0 <= i < |d| ==> d[i].key != key
  {
    if d == [] then None
    else if d[0].key == key then Some(d[0].items)
    else Find(d[1..], key)
  }

  /** The position of `key`, if it is present. */
  function IndexOf(d: seq<GroupEntry>, key: string): (r: Option<nat>)
    ensures r.None? <==> forall i :: 0 <= i < |d| ==> d[i].key != key
    ensures r.Some? ==> r.value < |d| && d[r.value].key == key
  {
    if d == [] then None
    else if d[0].key == key then Some(0)
    else match IndexOf(d[1..], key)
      case None => None
      case Some(i) => Some(i + 1)
  }

  /** With distinct keys, looking up the key at position `i` finds that entry. */
  lemma {:induction false} FindAt(d: seq<GroupEntry>, i: int)
    requires DistinctKeys(d) && 0 <= i < |d|
    ensures Find(d, d[i].key) == Some(d[i].items)
  {
    if i > 0 {
      assert d[1..][i - 1] == d[i];
      FindAt(d[1..], i - 1);
    }
  }

  /** Appending an entry under a new key. */
  lemma AppendEntry(d: seq<GroupEntry>, e: GroupEntry)
    requires DistinctKeys(d) && forall i :: 0 <= i < |d| ==> d[i].key != e.key
    ensures DistinctKeys(d + [e])
    ensures Find(d + [e], e.key) == Some(e.items)
    ensures forall k :: k != e.key ==> Find(d + [e], k) == Find(d, k)
  {
    var r := d + [e];
    forall i, j | 0 <= i < j < |r|
      ensures r[i].key != r[j].key
    {
      assert r[i] == d[i];
      if j < |d| {
        assert r[j] == d[j];
      }
    }
    FindAt(r, |d|);
    forall k | k != e.key
      ensures Find(r, k) == Find(d, k)
    {
      if j :| 0 <= j < |d| && d[j].key == k {
        FindAt(d, j);
        FindAt(r, j);
      } else {
        forall j | 0 <= j < |r|
          ensures r[j].key != k
        {
          if j < |d| {
            assert r[j] == d[j];
          }
        }
      }
    }
  }

  /** Overwriting the entry at position `i` under its own key. */
  lemma ReplaceEntry(d: seq<GroupEntry>, i: int, e: GroupEntry)
    requires DistinctKeys(d) && 0 <= i < |d| && d[i].key == e.key
    ensures DistinctKeys(d[i := e])
    ensures Find(d[i := e], e.key) == Some(e.items)
    ensures forall k :: k != e.key ==> Find(d[i := e], k) == Find(d, k)
  {
    var r := d[i := e];
    FindAt(r, i);
    forall k | k != e.key
      ensures Find(r, k) == Find(d, k)
    {
      if j :| 0 <= j < |d| && d[j].key == k {
        FindAt(d, j);
        FindAt(r, j);
      } else {
        assert forall j :: 0 <= j < |r| ==> r[j].key == d[j].key;
      }
    }
  }

  /** `record[key] = items`: an existing key keeps its position and gets the new
      value, a new key is appended at the end. */
  function Put(d: seq<GroupEntry>, key: string, items: seq<DataItem>): (r: seq<GroupEntry>)
    requires DistinctKeys(d)
    ensures DistinctKeys(r)
    ensures Find(r, key) == Some(items)
    ensures forall k :: k != key ==> Find(r, k) == Find(d, k)
    ensures Find(d, key).None? ==> r == d + [GroupEntry(key, items)]
    ensures Find(d, key).Some? ==> |r| == |d| && forall i :: 0 <= i < |d| ==> r[i].key == d[i].key
  {
    match IndexOf(d, key)
    case None =>
      AppendEntry(d, GroupEntry(key, items));
      d + [GroupEntry(key, items)]
    case Some(i) =>
      ReplaceEntry(d, i, GroupEntry(key, items));
      d[i := GroupEntry(key, items)]
  }

  /** The dictionary after the `forEach` has visited every group in order. */
  function Grouped(data: seq<DataItem>, groups: seq<ComparisonGroup>): (r: seq<GroupEntry>)
    ensures DistinctKeys(r)
  {
    if groups == [] then []
    else
      var last := groups[|groups| - 1];
      Put(Grouped(data, groups[..|groups| - 1]), last.id, GroupMembers(data, last))
  }

  /** `groupDataByComparisons`: fill a dictionary keyed by group id. */
  method GroupDataByComparisons(data: seq<DataItem>, groups: seq<ComparisonGroup>)
    returns (grouped: seq<GroupEntry>)
    ensures grouped == Grouped(data, groups)
  {
    grouped := [];
    for i := 0 to |groups|
      invariant grouped == Grouped(data, groups[..i])
    {
      GroupedStep(data, groups, i);
      grouped := Put(grouped, groups[i].id, GroupMembers(data, groups[i]));
    }
    assert groups[..|groups|] == groups;
  }

  lemma GroupedStep(data: seq<DataItem>, groups: seq<ComparisonGroup>, i: int)
    requires 0 <= i < |groups|
    ensures Grouped(data, groups[..i + 1])
            == Put(Grouped(data, groups[..i]), groups[i].id, GroupMembers(data, groups[i]))
  {
    assert groups[..i + 1][..i] == groups[..i];
  }

  /** The last group in the list that carries id `k`. */
  function LastWithId(groups: seq<ComparisonGroup>, k: string): (r: Option<ComparisonGroup>)
    ensures r.Some? ==> r.value in groups && r.value.id == k
    ensures r.None? <==> forall i :: 0 <= i < |groups| ==> groups[i].id != k
  {
    if groups == [] then None
    else if groups[|groups| - 1].id == k then Some(groups[|groups| - 1])
    else LastWithId(groups[..|groups| - 1], k)
  }

  lemma {:induction false} LastWithIdAt(groups: seq<ComparisonGroup>, k: string, i: int)
    requires 0 <= i < |groups| && groups[i].id == k
    requires forall j :: i < j < |groups| ==> groups[j].id != k
    ensures LastWithId(groups, k) == Some(groups[i])
  {
    if i < |groups| - 1 {
      LastWithIdAt(groups[..|groups| - 1], k, i);
    }
  }

  /** Each id present among the groups is a key, holding the members of the
      LAST group with that id; ids of no group are absent. */
  lemma {:induction false} GroupedLookup(data: seq<DataItem>, groups: seq<ComparisonGroup>, k: string)
    ensures Find(Grouped(data, groups), k) ==
            match LastWithId(groups, k)
            case None => None
            case Some(g) => Some(GroupMembers(data, g))
  {
    if groups != [] {
      GroupedLookup(data, groups[..|groups| - 1], k);
    }
  }

  /** With pairwise distinct ids there is one entry per group, in group order. */
  lemma {:induction false} GroupedDistinctIds(data: seq<DataItem>, groups: seq<ComparisonGroup>)
    requires forall i, j :: 0 <= i < j < |groups| ==> groups[i].id != groups[j].id
    ensures |Grouped(data, groups)| == |groups|
    ensures forall i :: 0 <= i < |groups| ==>
              Grouped(data, groups)[i] == GroupEntry(groups[i].id, GroupMembers(data, groups[i]))
  {
    if groups != [] {
      var init, last := groups[..|groups| - 1], groups[|groups| - 1];
      GroupedDistinctIds(data, init);
      var before := Grouped(data, init);
      forall j | 0 <= j < |before|
        ensures before[j].key != last.id
      {
        assert init[j] == groups[j];
      }
      var after := before + [GroupEntry(last.id, GroupMembers(data, last))];
      assert Grouped(data, groups) == after;
      forall i | 0 <= i < |groups|
        ensures after[i] == GroupEntry(groups[i].id, GroupMembers(data, groups[i]))
      {
        if i < |init| {
          assert init[i] == groups[i];
        }
      }
    }
  }

  /** Groups overlap: a record meeting the constraints of two groups is a member of both. */
  lemma RecordInSeveralGroups(data: seq<DataItem>, x: DataItem, g1: ComparisonGroup, g2: ComparisonGroup)
    requires x in data && InGroup(g1.conditions, x) && InGroup(g2.conditions, x)
    ensures x in GroupMembers(data, g1) && x in GroupMembers(data, g2)
  {
  }

  // ---------------------------------------------------------------- option tables

  datatype PropertyOption = PropertyOption(caption: string, value: Field, kind: FieldType)

  datatype OperatorOption = OperatorOption(caption: string, value: Operator)

  /** `getPropertyOptions`: the five fields with their labels and declared types. */
  function PropertyOptions(): (r: seq<PropertyOption>)
    ensures |r| == 5
    ensures forall o :: o in r ==> o.kind == KindOf(o.value)
    ensures forall i, j :: 0 <= i < j < |r| ==> r[i].value != r[j].value
  {
    [ PropertyOption("Inventory Count", InventoryCount, NumberType),
      PropertyOption("Items in Cart", ItemsInCart, NumberType),
      PropertyOption("Time", Time, NumberType),
      PropertyOption("Is Price List Applied", IsPriceListApplied, BooleanType),
      PropertyOption("Is Offer Applied", IsOfferApplied, BooleanType) ]
  }

  /** Every field is offered exactly once: three numeric and two boolean entries. */
  lemma PropertyOptionsCoverFields(f: Field)
    ensures exists i :: 0 <= i < |PropertyOptions()| && PropertyOptions()[i].value == f
  {
    var r := PropertyOptions();
    match f
    case InventoryCount => assert r[0].value == f;
    case ItemsInCart => assert r[1].value == f;
    case Time => assert r[2].value == f;
    case IsPriceListApplied => assert r[3].value == f;
    case IsOfferApplied => assert r[4].value == f;
  }

  function OperatorValues(options: seq<OperatorOption>): (r: seq<Operator>)
    ensures |r| == |options|
    ensures forall i :: 0 <= i < |options| ==> r[i] == options[i].value
  {
    seq(|options|, i requires 0 <= i < |options| => options[i].value)
  }

  lemma EveryOperatorListed()
    ensures forall op :: op in [Gt, Lt, Gte, Lte, Eq, Neq]
  {
    var all := [Gt, Lt, Gte, Lte, Eq, Neq];
    forall op: Operator
      ensures op in all
    {
      match op
      case Gt => assert all[0] == op;
      case Lt => assert all[1] == op;
      case Gte => assert all[2] == op;
      case Lte => assert all[3] == op;
      case Eq => assert all[4] == op;
      case Neq => assert all[5] == op;
    }
  }

  /** `getOperatorOptions`: equality operators for booleans, all six for numbers.
      With `OfferedOperatorCanHold` and the first postcondition of `Holds`, the
      operators offered are exactly those that can hold on a field of the type. */
  function OperatorOptions(kind: FieldType): (r: seq<OperatorOption>)
    ensures forall op :: op in OperatorValues(r) <==> kind == NumberType || !IsOrdering(op)
    ensures kind == BooleanType ==> OperatorValues(r) == [Eq, Neq]
    ensures forall i, j :: 0 <= i < j < |r| ==> r[i].value != r[j].value
  {
    if kind == BooleanType then
      var r := [ OperatorOption("Equals", Eq), OperatorOption("Not Equals", Neq) ];
      assert OperatorValues(r) == [Eq, Neq];
      r
    else
      var r := [ OperatorOption("Greater Than", Gt),
                 OperatorOption("Less Than", Lt),
                 OperatorOption("Greater Than or Equal", Gte),
                 OperatorOption("Less Than or Equal", Lte),
                 OperatorOption("Equals", Eq),
                 OperatorOption("Not Equals", Neq) ];
      assert OperatorValues(r) == [Gt, Lt, Gte, Lte, Eq, Neq];
      EveryOperatorListed();
      assert kind == NumberType;
      assert forall op :: op in OperatorValues(r);
      r
  }

  /** Every operator the select offers for a type holds for some field of that
      type, some value and some bag. */
  lemma OfferedOperatorCanHold(kind: FieldType, op: Operator)
    requires op in OperatorValues(OperatorOptions(kind))
    ensures exists f: Field, v: Value, bag: PropertyBag ::
              KindOf(f) == kind && Holds(Condition(f, op, v, ""), bag)
  {
    var bag := PropertyBag(false, 1.0, false, 0.0, 0.0);
    var f := if kind == NumberType then ItemsInCart else IsOfferApplied;
    var v := match op
      case Gt => Num(0.0)
      case Lt => Num(2.0)
      case Gte => Num(1.0)
      case Lte => Num(1.0)
      case Eq => Lookup(bag, f)
      case Neq => if kind == NumberType then Num(0.0) else Bool(true);
    assert Holds(Condition(f, op, v, ""), bag);
  }
}
