/** The five sample records shipped with the dashboard (src/lib/data.ts) and
    the result of one end-to-end run of the pipeline over them. */
module Sample {
  import opened Types
  import opened Data
  import opened Chart
  import opened Session

  /** The `i`-th record of `sampleData.data.result`, before decoding. */
  function SampleRecord(i: int): (r: DataItem)
    requires 0 <= i < 5
    ensures r.parsedCustomProperties.None?
  {
    if i == 0 then
      DataItem("{\"isPriceListApplied\":false,\"itemsInCart\":18,\"isOfferApplied\":true,\"inventoryCount\":349,\"time\":0}",
               "3.7.0", 0, 2141999127683, "Android", "10", None)
    else if i == 1 then
      DataItem("{\"isPriceListApplied\":false,\"itemsInCart\":19,\"isOfferApplied\":true,\"inventoryCount\":329,\"time\":0}",
               "3.7.0", 0, 2141999127683, "Android", "10", None)
    else if i == 2 then
      DataItem("{\"isPriceListApplied\":true,\"itemsInCart\":12,\"isOfferApplied\":false,\"inventoryCount\":245,\"time\":10}",
               "3.7.0", 0, 2141999127684, "iOS", "14", None)
    else if i == 3 then
      DataItem("{\"isPriceListApplied\":true,\"itemsInCart\":8,\"isOfferApplied\":false,\"inventoryCount\":120,\"time\":15}",
               "3.7.0", 0, 2141999127685, "Android", "11", None)
    else
      DataItem("{\"isPriceListApplied\":false,\"itemsInCart\":22,\"isOfferApplied\":false,\"inventoryCount\":80,\"time\":20}",
               "3.7.0", 0, 2141999127686, "iOS", "15", None)
  }

  /** `sampleData.data.result`, before decoding. */
  function SampleData(): (r: seq<DataItem>)
    ensures |r| == 5
    ensures forall i :: 0 <= i < 5 ==> r[i] == SampleRecord(i)
  {
    seq(5, i requires 0 <= i < 5 => SampleRecord(i))
  }

  /** What the `i`-th sample blob denotes. */
  function SampleBag(i: int): PropertyBag
    requires 0 <= i < 5
  {
    if i == 0 then PropertyBag(false, 18.0, true, 349.0, 0.0)
    else if i == 1 then PropertyBag(false, 19.0, true, 329.0, 0.0)
    else if i == 2 then PropertyBag(true, 12.0, false, 245.0, 10.0)
    else if i == 3 then PropertyBag(true, 8.0, false, 120.0, 15.0)
    else PropertyBag(false, 22.0, false, 80.0, 20.0)
  }

  /** `decode` reads each sample blob as the bag it spells out. */
  predicate DecodesSample(decode: string -> Option<PropertyBag>)
  {
    forall i :: 0 <= i < 5 ==> decode(SampleRecord(i).customproperties) == Some(SampleBag(i))
  }

  /** The sample decoded: every record carries its bag. */
  lemma SampleDecoded(decode: string -> Option<PropertyBag>)
    requires DecodesSample(decode)
    ensures var parsed := ParseData(decode, SampleData());
            |parsed| == 5
            && forall i :: 0 <= i < 5 ==> parsed[i].parsedCustomProperties == Some(SampleBag(i))
  {
  }

  /** Filtering five elements of which the first, second and fifth pass. */
  lemma FilterFive(p: DataItem -> bool, xs: seq<DataItem>)
    requires |xs| == 5
    requires p(xs[0]) && p(xs[1]) && !p(xs[2]) && !p(xs[3]) && p(xs[4])
    ensures Seqs.Filter(p, xs) == [xs[0], xs[1], xs[4]]
  {
    assert xs[..1][..0] == [];
    assert Seqs.Filter(p, xs[..1]) == [xs[0]];
    assert xs[..2][..1] == xs[..1];
    assert Seqs.Filter(p, xs[..2]) == [xs[0], xs[1]];
    assert xs[..3][..2] == xs[..2];
    assert Seqs.Filter(p, xs[..3]) == [xs[0], xs[1]];
    assert xs[..4][..3] == xs[..3];
    assert Seqs.Filter(p, xs[..4]) == [xs[0], xs[1]];
    assert xs[..4] == xs[..|xs| - 1];
  }

  /** A record passes the single condition `field > t` exactly when it is
      decoded and its field holds a number above `t`. */
  lemma AdmitsGreaterThan(f: Field, t: real, id: string, item: DataItem)
    ensures Admits([Condition(f, Gt, Num(t), id)], item)
            <==> item.parsedCustomProperties.Some?
                 && Lookup(item.parsedCustomProperties.value, f).Num?
                 && Lookup(item.parsedCustomProperties.value, f).n > t
  {
    if item.parsedCustomProperties.Some? {
      assert AllHold([Condition(f, Gt, Num(t), id)], item.parsedCustomProperties.value)
             == Holds(Condition(f, Gt, Num(t), id), item.parsedCustomProperties.value);
    }
  }

  /** The condition `itemsInCart > 15` keeps the first, second and fifth record
      of a batch decoded to the sample bags. */
  lemma SampleFilter(parsed: seq<DataItem>, conditionId: string)
    requires |parsed| == 5
    requires forall i :: 0 <= i < 5 ==> parsed[i].parsedCustomProperties == Some(SampleBag(i))
    ensures FilterDataByConditions(parsed, [Condition(ItemsInCart, Gt, Num(15.0), conditionId)])
            == [parsed[0], parsed[1], parsed[4]]
  {
    var p := AdmitsFn([Condition(ItemsInCart, Gt, Num(15.0), conditionId)]);
    forall i | 0 <= i < 5
      ensures p(parsed[i]) <==> i == 0 || i == 1 || i == 4
    {
      AdmitsGreaterThan(ItemsInCart, 15.0, conditionId, parsed[i]);
    }
    FilterFive(p, parsed);
  }

  /** The bags of three decoded records, in order. */
  lemma BagsOfThree(a: DataItem, b: DataItem, c: DataItem)
    requires a.parsedCustomProperties.Some? && b.parsedCustomProperties.Some? && c.parsedCustomProperties.Some?
    ensures Bags([a, b, c]) == [a.parsedCustomProperties.value, b.parsedCustomProperties.value,
                                c.parsedCustomProperties.value]
  {
    var ba, bb, bc := a.parsedCustomProperties.value, b.parsedCustomProperties.value, c.parsedCustomProperties.value;
    assert Bags([a]) == [ba] by {
      BagsSnoc([], a);
      assert [] + [a] == [a];
    }
    assert Bags([a, b]) == [ba, bb] by {
      BagsSnoc([a], b);
      assert [a] + [b] == [a, b];
    }
    BagsSnoc([a, b], c);
    assert [a, b] + [c] == [a, b, c];
  }

  lemma SumOfThree(x: real, y: real, z: real)
    ensures Sum([Num(x), Num(y), Num(z)]) == x + y + z
  {
    assert Sum([Num(x)]) == x by {
      SumSnoc([], Num(x));
      assert [] + [Num(x)] == [Num(x)];
    }
    assert Sum([Num(x), Num(y)]) == x + y by {
      SumSnoc([Num(x)], Num(y));
      assert [Num(x)] + [Num(y)] == [Num(x), Num(y)];
    }
    SumSnoc([Num(x), Num(y)], Num(z));
    assert [Num(x), Num(y)] + [Num(z)] == [Num(x), Num(y), Num(z)];
  }

  /** The mean `itemsInCart` of three records holding 18, 19 and 22 is 59/3. */
  lemma ThreeRecordMean(a: DataItem, b: DataItem, c: DataItem)
    requires a.parsedCustomProperties.Some? && b.parsedCustomProperties.Some? && c.parsedCustomProperties.Some?
    requires a.parsedCustomProperties.value.itemsInCart == 18.0
    requires b.parsedCustomProperties.value.itemsInCart == 19.0
    requires c.parsedCustomProperties.value.itemsInCart == 22.0
    ensures MetricStat([a, b, c], ItemsInCart) == Some(59.0 / 3.0)
  {
    BagsOfThree(a, b, c);
    var values := FieldValues(Bags([a, b, c]), ItemsInCart);
    assert values == [Num(18.0), Num(19.0), Num(22.0)];
    SumOfThree(18.0, 19.0, 22.0);
  }

  /** The statistics record of the records `itemsInCart > 15` keeps. */
  lemma SampleKeptStats(parsed: seq<DataItem>, conditionId: string)
    requires |parsed| == 5
    requires forall i :: 0 <= i < 5 ==> parsed[i].parsedCustomProperties == Some(SampleBag(i))
    ensures AggregateStats(FilterDataByConditions(parsed, [Condition(ItemsInCart, Gt, Num(15.0), conditionId)]),
                           [ItemsInCart])
            == map[ItemsInCart := 59.0 / 3.0]
  {
    SampleFilter(parsed, conditionId);
    ThreeRecordMean(parsed[0], parsed[1], parsed[4]);
    SingleMetricStats([parsed[0], parsed[1], parsed[4]], ItemsInCart);
  }

  /** With the single condition `itemsInCart > 15`, no comparison group and
      `itemsInCart` as the only metric, the aggregated view of a batch decoded
      to the sample bags has one row, named 'all', whose value is the mean of
      18, 19 and 22, that is 59/3. */
  lemma SampleBatchAverage(parsed: seq<DataItem>, conditionId: string, metricId: string)
    requires |parsed| == 5
    requires forall i :: 0 <= i < 5 ==> parsed[i].parsedCustomProperties == Some(SampleBag(i))
    ensures ProcessedRows(parsed, [Condition(ItemsInCart, Gt, Num(15.0), conditionId)],
                          [], [MetricConfig(metricId, ItemsInCart)], true)
            == [AggregatedRow("all", map[ItemsInCart := 59.0 / 3.0])]
  {
    var conditions := [Condition(ItemsInCart, Gt, Num(15.0), conditionId)];
    var metrics := [MetricConfig(metricId, ItemsInCart)];
    var filtered := FilterDataByConditions(parsed, conditions);
    assert MetricFields(metrics) == [ItemsInCart];
    assert AggregateStats(filtered, MetricFields(metrics)) == map[ItemsInCart := 59.0 / 3.0] by {
      SampleKeptStats(parsed, conditionId);
    }
    WithoutGroups(parsed, conditions, metrics);
  }

  /** The same run over the shipped sample, decoded by any decoder that reads
      the five blobs as the bags they spell out. */
  lemma SampleItemsInCartAverage(decode: string -> Option<PropertyBag>, conditionId: string, metricId: string)
    requires DecodesSample(decode)
    ensures ProcessedRows(ParseData(decode, SampleData()), [Condition(ItemsInCart, Gt, Num(15.0), conditionId)],
                          [], [MetricConfig(metricId, ItemsInCart)], true)
            == [AggregatedRow("all", map[ItemsInCart := 59.0 / 3.0])]
  {
    SampleDecoded(decode);
    SampleBatchAverage(ParseData(decode, SampleData()), conditionId, metricId);
  }
}
