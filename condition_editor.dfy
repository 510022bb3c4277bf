/** The condition draft editor (src/components/ConditionBuilder.tsx): a field
    dropped from the property list, an operator picked from the options for its
    type and a value from a switch or a slider, emitted as a condition draft. */
module ConditionEditor {
  import opened Types
  import opened Data

  /** The value a freshly dropped field starts with: false or 0. */
  function DefaultValue(kind: FieldType): (v: Value)
    ensures ValueKind(v) == kind
    ensures kind == NumberType ==> ToNumber(v) == 0.0
    ensures kind == BooleanType ==> !v.b
  {
    match kind
    case BooleanType => Bool(false)
    case NumberType => Num(0.0)
  }

  /** The operator a freshly dropped field starts with: equality for booleans,
      `gt` for numbers; always one the operator select offers. */
  function DefaultOperator(kind: FieldType): (op: Operator)
    ensures op in OperatorValues(OperatorOptions(kind))
    ensures kind == BooleanType <==> !IsOrdering(op)
    ensures kind == BooleanType ==> op == Eq
    ensures kind == NumberType ==> op == Gt
  {
    if kind == BooleanType then Eq else Gt
  }

  /** Every operator the select offers for this type. */
  predicate Offered(kind: FieldType, op: Operator)
  {
    op in OperatorValues(OperatorOptions(kind))
  }

  /** A condition that the editor can emit: the operator is offered for the
      field's type and the value has the field's type. */
  predicate WellTyped(d: ConditionDraft)
  {
    Offered(KindOf(d.field), d.operator) && ValueKind(d.value) == KindOf(d.field)
  }

  /** `getPropertyLabel`: the caption of a blob key, the key itself otherwise. */
  function PropertyLabel(key: string): (r: string)
    ensures forall o :: o in PropertyOptions() && FieldKey(o.value) == key ==> r == o.caption
    ensures (forall f :: FieldKey(f) != key) ==> r == key
  {
    if key == FieldKey(InventoryCount) then "Inventory Count"
    else if key == FieldKey(ItemsInCart) then "Items in Cart"
    else if key == FieldKey(Time) then "Time"
    else if key == FieldKey(IsPriceListApplied) then "Is Price List Applied"
    else if key == FieldKey(IsOfferApplied) then "Is Offer Applied"
    else key
  }

  /** The six symbols the condition list shows. */
  function OperatorSymbols(): seq<string>
  {
    [">", "<", "≥", "≤", "=", "≠"]
  }

  /** `getOperatorLabel`: the one-character symbol of an operator; ordering
      operators get an inequality sign that opens the way the comparison goes
      and is strict exactly when the comparison is, equality tests get `=` or `≠`. */
  function OperatorLabel(op: Operator): (r: string)
    ensures |r| == 1 && r in OperatorSymbols()
    ensures IsOrdering(op) <==> r[0] in {'>', '<', '≥', '≤'}
    ensures op == Gt || op == Gte <==> r[0] in {'>', '≥'}
    ensures op == Gt || op == Lt <==> r[0] in {'>', '<'}
    ensures op == Eq <==> r == "="
    ensures op == Neq <==> r == "≠"
  {
    match op
    case Gt => ">"
    case Lt => "<"
    case Gte => "≥"
    case Lte => "≤"
    case Eq => "="
    case Neq => "≠"
  }

  /** Distinct operators are shown with distinct symbols. */
  lemma OperatorLabelInjective(a: Operator, b: Operator)
    requires OperatorLabel(a) == OperatorLabel(b)
    ensures a == b
  {
    assert OperatorLabel(a)[0] == OperatorLabel(b)[0];
  }

  /** Every symbol is the label of some operator: with injectivity, the labels
      are a one-to-one correspondence between operators and symbols. */
  lemma OperatorLabelOnto(s: string)
    requires s in OperatorSymbols()
    ensures exists op :: OperatorLabel(op) == s
  {
    var all := OperatorSymbols();
    if s == all[0] { assert OperatorLabel(Gt) == s; }
    else if s == all[1] { assert OperatorLabel(Lt) == s; }
    else if s == all[2] { assert OperatorLabel(Gte) == s; }
    else if s == all[3] { assert OperatorLabel(Lte) == s; }
    else if s == all[4] { assert OperatorLabel(Eq) == s; }
    else { assert OperatorLabel(Neq) == s; }
  }

  class ConditionBuilder {
    /** The dropped field; `None` is the empty string. */
    var draftField: Option<Field>
    var draftOperator: Operator
    var draftValue: Value
    var fieldType: FieldType

    /** The draft can only ever be emitted well typed. */
    ghost predicate Valid()
      reads this
    {
      ValueKind(draftValue) == fieldType
      && Offered(fieldType, draftOperator)
      && (draftField.Some? ==> KindOf(draftField.value) == fieldType)
    }

    constructor ()
      ensures Valid()
      ensures draftField == None && draftOperator == Gt && draftValue == Num(0.0) && fieldType == NumberType
    {
      draftField := None;
      draftOperator := Gt;
      draftValue := Num(0.0);
      fieldType := NumberType;
    }

    /** `handleDrop`: take the dropped property and reset operator and value
        to the defaults of its type. */
    method HandleDrop(item: PropertyOption)
      requires item in PropertyOptions()
      modifies this
      ensures Valid()
      ensures draftField == Some(item.value) && fieldType == item.kind
      ensures draftValue == DefaultValue(item.kind) && draftOperator == DefaultOperator(item.kind)
    {
      draftField := Some(item.value);
      fieldType := item.kind;
      draftValue := if item.kind == BooleanType then Bool(false) else Num(0.0);
      draftOperator := if item.kind == BooleanType then Eq else Gt;
    }

    /** The operator select: only the options for the current type are offered. */
    method SetDraftOperator(op: Operator)
      requires Valid() && Offered(fieldType, op)
      modifies this`draftOperator
      ensures Valid() && draftOperator == op
    {
      draftOperator := op;
    }

    /** The switch (boolean fields) or the slider (number fields). */
    method SetDraftValue(v: Value)
      requires Valid() && ValueKind(v) == fieldType
      modifies this`draftValue
      ensures Valid() && draftValue == v
    {
      draftValue := v;
    }

    /** `handleAddCondition`: without a field nothing happens; otherwise the
        draft is emitted and only the field is cleared. */
    method HandleAddCondition() returns (emitted: Option<ConditionDraft>)
      requires Valid()
      modifies this`draftField
      ensures Valid()
      ensures old(draftField).None? ==> emitted == None && draftField == None
      ensures old(draftField).Some? ==>
                emitted == Some(ConditionDraft(old(draftField).value, draftOperator, draftValue))
                && draftField == None
      ensures emitted.Some? ==> WellTyped(emitted.value)
    {
      if draftField.Some? {
        emitted := Some(ConditionDraft(draftField.value, draftOperator, draftValue));
        draftField := None;
      } else {
        emitted := None;
      }
    }
  }

  /** A well-typed condition on a boolean field compares booleans: `eq` holds
      exactly when the field has the chosen value and `neq` exactly when not. */
  lemma WellTypedBooleanCondition(d: ConditionDraft, id: string, bag: PropertyBag)
    requires WellTyped(d) && KindOf(d.field) == BooleanType
    ensures d.operator == Eq || d.operator == Neq
    ensures Holds(Condition(d.field, d.operator, d.value, id), bag)
            <==> (d.operator == Eq <==> Lookup(bag, d.field) == d.value)
  {
    assert OperatorValues(OperatorOptions(BooleanType)) == [Eq, Neq];
    if d.operator == Neq {
      NeqIsNotEq(d.field, d.value, bag, id, id);
    }
  }
}
