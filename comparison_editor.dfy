/** The comparison group editor (src/components/ComparisonBuilder.tsx): a
    group name and a set of field = value constraints collected one dropped
    property at a time, emitted as a group draft. */
module ComparisonEditor {
  import opened Types
  import opened Seqs
  import opened Data
  import opened ConditionEditor

  /** Every constraint value has the type of its field. */
  predicate ConstraintsTyped(conditions: map<Field, Value>)
  {
    forall f :: f in conditions ==> ValueKind(conditions[f]) == KindOf(f)
  }

  class ComparisonBuilder {
    var groupName: string
    var conditions: map<Field, Value>
    /** The dropped property; `None` is the empty string. */
    var property: Option<Field>
    var propertyType: FieldType
    var propertyValue: Value

    ghost predicate Valid()
      reads this
    {
      ValueKind(propertyValue) == propertyType
      && (property.Some? ==> KindOf(property.value) == propertyType)
      && ConstraintsTyped(conditions)
    }

    constructor ()
      ensures Valid()
      ensures groupName == "" && conditions == map[] && property == None
      ensures propertyType == BooleanType && propertyValue == Bool(false)
    {
      groupName := "";
      conditions := map[];
      property := None;
      propertyType := BooleanType;
      propertyValue := Bool(false);
    }

    /** `handleDrop`: take the dropped property with the default value of its type. */
    method HandleDrop(item: PropertyOption)
      requires Valid() && item in PropertyOptions()
      modifies this`property, this`propertyType, this`propertyValue
      ensures Valid()
      ensures property == Some(item.value) && propertyType == item.kind
      ensures propertyValue == DefaultValue(item.kind)
    {
      property := Some(item.value);
      propertyType := item.kind;
      propertyValue := if item.kind == BooleanType then Bool(false) else Num(0.0);
    }

    /** The group name input. */
    method SetGroupName(name: string)
      requires Valid()
      modifies this`groupName
      ensures Valid() && groupName == name
    {
      groupName := name;
    }

    /** The switch (boolean fields) or the number input (number fields). */
    method SetPropertyValue(v: Value)
      requires Valid() && ValueKind(v) == propertyType
      modifies this`propertyValue
      ensures Valid() && propertyValue == v
    {
      propertyValue := v;
    }

    /** `handleAddProperty`: with a property and a group name, record the
        constraint (replacing an earlier one on the same field) and clear the
        property; otherwise nothing happens. */
    method HandleAddProperty()
      requires Valid()
      modifies this`conditions, this`property
      ensures Valid()
      ensures old(property).Some? && old(groupName) != "" ==>
                conditions == old(conditions)[old(property).value := old(propertyValue)]
                && property == None
      ensures !(old(property).Some? && old(groupName) != "") ==>
                conditions == old(conditions) && property == old(property)
    {
      if property.Some? && groupName != "" {
        conditions := conditions[property.value := propertyValue];
        property := None;
      }
    }

    /** `handleAddGroup`: with a name and at least one constraint, emit the
        group and reset name and constraints; otherwise nothing happens. */
    method HandleAddGroup() returns (emitted: Option<GroupDraft>)
      requires Valid()
      modifies this`groupName, this`conditions
      ensures Valid()
      ensures old(groupName) != "" && |old(conditions)| > 0 ==>
                emitted == Some(GroupDraft(old(groupName), old(conditions)))
                && groupName == "" && conditions == map[]
      ensures !(old(groupName) != "" && |old(conditions)| > 0) ==>
                emitted == None && groupName == old(groupName) && conditions == old(conditions)
      ensures emitted.Some? ==>
                emitted.value.name != "" && |emitted.value.conditions| > 0
                && ConstraintsTyped(emitted.value.conditions)
    {
      if groupName != "" && |conditions| > 0 {
        emitted := Some(GroupDraft(groupName, conditions));
        groupName := "";
        conditions := map[];
      } else {
        emitted := None;
      }
    }
  }

  /** Group membership is strict equality per field, so a constraint whose
      value has the wrong type (a number on a boolean field, say) empties the
      group; the editor only ever emits typed constraints. */
  lemma MistypedConstraintEmptiesGroup(data: seq<DataItem>, group: ComparisonGroup, f: Field)
    requires f in group.conditions && ValueKind(group.conditions[f]) != KindOf(f)
    ensures GroupMembers(data, group) == []
  {
    HeadIsElement(GroupMembers(data, group));
  }
}
