/** The shapes shared by the data pipeline and the dashboard configuration
    (src/lib/types.ts). Property bags are typed records over a closed set of
    fields instead of string-keyed objects. */
module Types {

  datatype Option<+T> = None | Some(value: T)

  /** The five keys of a decoded property blob. */
  datatype Field = InventoryCount | ItemsInCart | Time | IsPriceListApplied | IsOfferApplied

  /** The declared type of a field: 'number' or 'boolean'. */
  datatype FieldType = NumberType | BooleanType

  datatype Operator = Gt | Lt | Gte | Lte | Eq | Neq

  /** A JavaScript `number | boolean`; numbers are modelled as reals. */
  datatype Value = Num(n: real) | Bool(b: bool)

  /** The decoded `CustomProperties` record. */
  datatype PropertyBag = PropertyBag(
    isPriceListApplied: bool,
    itemsInCart: real,
    isOfferApplied: bool,
    inventoryCount: real,
    time: real)

  /** One ingested record; `parsedCustomProperties` is absent until decoding succeeds. */
  datatype DataItem = DataItem(
    customproperties: string,
    appversion: string,
    userid: int,
    deviceid: int,
    platform: string,
    osversion: string,
    parsedCustomProperties: Option<PropertyBag>)

  datatype Condition = Condition(field: Field, operator: Operator, value: Value, id: string)

  /** A condition before the dashboard gives it an id (`Omit<Condition, 'id'>`). */
  datatype ConditionDraft = ConditionDraft(field: Field, operator: Operator, value: Value)

  /** A comparison group: a name and conjunctive field = value constraints. */
  datatype ComparisonGroup = ComparisonGroup(id: string, name: string, conditions: map<Field, Value>)

  /** A group before the dashboard gives it an id (`Omit<ComparisonGroup, 'id'>`). */
  datatype GroupDraft = GroupDraft(name: string, conditions: map<Field, Value>)

  datatype MetricConfig = MetricConfig(id: string, field: Field)

  datatype ViewType = ChartView | TableView

  datatype ChartType = BarChart | LineChart

  /** The declared type of each field of `CustomProperties`. */
  function KindOf(f: Field): FieldType
  {
    match f
    case InventoryCount => NumberType
    case ItemsInCart => NumberType
    case Time => NumberType
    case IsPriceListApplied => BooleanType
    case IsOfferApplied => BooleanType
  }

  /** The runtime type of a value (`typeof v`). */
  function ValueKind(v: Value): FieldType
  {
    if v.Num? then NumberType else BooleanType
  }

  /** The key under which a field is stored in the serialized blob. */
  function FieldKey(f: Field): string
  {
    match f
    case InventoryCount => "inventoryCount"
    case ItemsInCart => "itemsInCart"
    case Time => "time"
    case IsPriceListApplied => "isPriceListApplied"
    case IsOfferApplied => "isOfferApplied"
  }

  /** `bag[field]`: a numeric field reads as a number, a boolean field as a boolean. */
  function Lookup(bag: PropertyBag, f: Field): (v: Value)
    ensures ValueKind(v) == KindOf(f)
  {
    match f
    case InventoryCount => Num(bag.inventoryCount)
    case ItemsInCart => Num(bag.itemsInCart)
    case Time => Num(bag.time)
    case IsPriceListApplied => Bool(bag.isPriceListApplied)
    case IsOfferApplied => Bool(bag.isOfferApplied)
  }

  /** JavaScript `Number(v)` for a number or a boolean. */
  function ToNumber(v: Value): (r: real)
    ensures v.Num? ==> r == v.n
    ensures v == Bool(true) ==> r == 1.0
    ensures v == Bool(false) ==> r == 0.0
  {
    match v
    case Num(n) => n
    case Bool(b) => if b then 1.0 else 0.0
  }

  /** Distinct fields have distinct keys, so the blob key identifies the field. */
  lemma FieldKeyInjective(f: Field, g: Field)
    requires FieldKey(f) == FieldKey(g)
    ensures f == g
  {
  }
}
