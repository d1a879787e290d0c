/** The four field arrays of a single type as objects with identity. The type keeps, besides
    its four array properties, the list `allFieldArrays` of the same four arrays, taken once
    at construction; `forEachField`, and through it `requiresRendering` and
    `disableCompletely`, walks that list. Adding a field pushes onto the array in place, but
    the "remove" event of the extension listener replaces the property with a filtered copy,
    after which the list and the property are different arrays. */
module FieldArrays {
  import opened Wrappers
  import opened TypeTree
  import opened Extensions

  /** A JavaScript array of fields. */
  class FieldArray {
    var items: seq<Field>

    constructor (items: seq<Field>)
      ensures this.items == items
    {
      this.items := items;
    }
  }

  /** The fields of arrays, in order. */
  function ItemsOf(arrays: seq<FieldArray>): seq<Field>
    reads arrays
  {
    if arrays == [] then [] else arrays[0].items + ItemsOf(arrays[1..])
  }

  class SingleType {
    var fields: FieldArray
    var extendedFields: FieldArray
    var arrayFields: FieldArray
    var descriptions: FieldArray
    const allFieldArrays: seq<FieldArray>

    /** `that[arrayName]` */
    function Slot(c: Category): FieldArray
      reads this
    {
      match c
      case Native => fields
      case Extended => extendedFields
      case ArrayField => arrayFields
      case Description => descriptions
    }

    /** The four array properties are four different arrays. */
    predicate Valid()
      reads this
    {
      fields != extendedFields && fields != arrayFields && fields != descriptions &&
      extendedFields != arrayFields && extendedFields != descriptions && arrayFields != descriptions
    }

    /** `allFieldArrays` still holds the arrays the properties refer to. */
    predicate Aliased()
      reads this
    {
      allFieldArrays == [fields, extendedFields, arrayFields, descriptions]
    }

    /** The fields `forEachField` visits. */
    function ForEachField(): seq<Field>
      reads allFieldArrays
    {
      ItemsOf(allFieldArrays)
    }

    /** The fields the four properties hold. */
    function Current(): seq<Field>
      reads this, fields, extendedFields, arrayFields, descriptions
    {
      fields.items + extendedFields.items + arrayFields.items + descriptions.items
    }

    /** A new single type: four fresh empty arrays, listed in `allFieldArrays`. */
    constructor ()
      ensures Valid() && Aliased()
      ensures Current() == [] && ForEachField() == []
      ensures fresh(fields) && fresh(extendedFields) && fresh(arrayFields) && fresh(descriptions)
    {
      var f := new FieldArray([]);
      var e := new FieldArray([]);
      var a := new FieldArray([]);
      var d := new FieldArray([]);
      fields, extendedFields, arrayFields, descriptions := f, e, a, d;
      allFieldArrays := [f, e, a, d];
      new;
      AliasedVisitsCurrent(this);
    }

    /** `that[arrayName].push(newField)`. */
    method Push(c: Category, f: Field)
      requires Valid()
      modifies Slot(c)
      ensures Slot(c).items == old(Slot(c).items) + [f]
      ensures forall d :: d != c ==> Slot(d).items == old(Slot(d).items)
    {
      var arr := Slot(c);
      arr.items := arr.items + [f];
    }

    /** The "remove" event as written: the property is given a new, filtered array; the
        array in `allFieldArrays` keeps the removed fields. */
    method RemoveAsWritten(c: Category, name: string)
      requires Valid()
      modifies this
      ensures Valid() && fresh(Slot(c))
      ensures Slot(c).items == Without(old(Slot(c).items), name)
      ensures forall d :: d != c ==> Slot(d) == old(Slot(d))
      ensures ForEachField() == old(ForEachField())
    {
      var arr := new FieldArray(Without(Slot(c).items, name));
      match c
      case Native => fields := arr;
      case Extended => extendedFields := arr;
      case ArrayField => arrayFields := arr;
      case Description => descriptions := arr;
    }

    /** The "remove" event filtering the array in place. */
    method Remove(c: Category, name: string)
      requires Valid()
      modifies Slot(c)
      ensures Slot(c).items == Without(old(Slot(c).items), name)
      ensures forall d :: d != c ==> Slot(d).items == old(Slot(d).items)
    {
      var arr := Slot(c);
      arr.items := Without(arr.items, name);
    }

    /** `disableCompletely`'s part on the arrays: it visits what `forEachField` visits and
        then empties every array in `allFieldArrays`. */
    method DisableCompletely() returns (visited: seq<Field>)
      modifies allFieldArrays
      ensures visited == old(ForEachField())
      ensures forall k :: 0 <= k < |allFieldArrays| ==> allFieldArrays[k].items == []
    {
      visited := ForEachField();
      var i := 0;
      while i < |allFieldArrays|
        invariant 0 <= i <= |allFieldArrays|
        invariant forall k :: 0 <= k < i ==> allFieldArrays[k].items == []
      {
        allFieldArrays[i].items := [];
        i := i + 1;
      }
    }
  }

  /** While `allFieldArrays` still holds the properties' arrays, `forEachField` visits exactly
      the fields the type holds, in the order of the four collections. */
  lemma AliasedVisitsCurrent(t: SingleType)
    requires t.Aliased()
    ensures t.ForEachField() == t.Current()
  {
    ItemsOfFour(t.allFieldArrays);
  }

  /** Whether any of the fields is enabled, as `requiresRendering` asks of the fields it visits. */
  predicate AnyEnabled(fs: seq<Field>) {
    exists k :: 0 <= k < |fs| && fs[k].isEnabled
  }

  /** An extension field is added, removed by the listener as written, and a second one is
      added and enabled: `forEachField` then visits only the removed field, so the type does
      not ask to be rendered, and `disableCompletely` never reaches the enabled field and
      leaves it in place. */
  method RemoveThenAddAsWritten() returns (visited: seq<Field>, current: seq<Field>, afterDisable: seq<Field>)
    ensures visited == [Field("a", Extended, false, None)]
    ensures current == [Field("b", Extended, true, None)]
    ensures AnyEnabled(current) && !AnyEnabled(visited)
    ensures afterDisable == current
  {
    var a := Field("a", Extended, false, None);
    var b := Field("b", Extended, true, None);
    var t := AddThenRemoveAsWritten(a);
    var ls := t.allFieldArrays;
    t.Push(Extended, b);
    assert t.extendedFields.items == [b];
    ItemsOfFour(ls);
    visited := t.ForEachField();
    current := t.Current();
    assert current == [b];
    assert AnyEnabled(current) by {
      assert current[0].isEnabled;
    }
    assert !AnyEnabled(visited) by {
      assert visited == [a];
    }
    var disabled := t.DisableCompletely();
    afterDisable := t.Current();
  }

  /** The first two steps: after the listener's "remove", the type holds no field, while the
      array `allFieldArrays` lists for the extended fields still holds the removed one. */
  method AddThenRemoveAsWritten(a: Field) returns (t: SingleType)
    ensures fresh(t) && fresh(t.fields) && fresh(t.extendedFields) && fresh(t.arrayFields) && fresh(t.descriptions)
    ensures t.Valid() && |t.allFieldArrays| == 4 && fresh(t.allFieldArrays[1])
    ensures t.allFieldArrays[0] == t.fields && t.allFieldArrays[2] == t.arrayFields && t.allFieldArrays[3] == t.descriptions
    ensures t.extendedFields !in t.allFieldArrays
    ensures t.fields.items == [] && t.extendedFields.items == [] && t.arrayFields.items == [] && t.descriptions.items == []
    ensures t.allFieldArrays[1].items == [a]
  {
    t := new SingleType();
    t.Push(Extended, a);
    t.RemoveAsWritten(Extended, a.name);
    assert t.Slot(Native).items == [] && t.Slot(ArrayField).items == [] && t.Slot(Description).items == [];
  }

  /** The fields of four arrays, in order. */
  lemma ItemsOfFour(ls: seq<FieldArray>)
    requires |ls| == 4
    ensures ItemsOf(ls) == ls[0].items + ls[1].items + ls[2].items + ls[3].items
  {
    assert ItemsOf(ls[3..]) == ls[3].items + ItemsOf(ls[4..]);
    assert ItemsOf(ls[2..]) == ls[2].items + ItemsOf(ls[3..]);
    assert ItemsOf(ls[1..]) == ls[1].items + ItemsOf(ls[2..]);
    assert ls[4..] == [];
  }

  /** The same steps with the in-place filter: `forEachField` visits exactly what the type
      holds, and `disableCompletely` reaches the enabled field and empties the type. */
  method RemoveThenAdd() returns (visited: seq<Field>, current: seq<Field>, afterDisable: seq<Field>)
    ensures visited == current == [Field("b", Extended, true, None)]
    ensures afterDisable == []
  {
    var a := Field("a", Extended, false, None);
    var b := Field("b", Extended, true, None);
    var t := new SingleType();
    t.Push(Extended, a);
    t.Remove(Extended, "a");
    t.Push(Extended, b);
    AliasedVisitsCurrent(t);
    visited := t.ForEachField();
    current := t.Current();
    var disabled := t.DisableCompletely();
    assert t.allFieldArrays[0].items == [] && t.allFieldArrays[1].items == [];
    assert t.allFieldArrays[2].items == [] && t.allFieldArrays[3].items == [];
    afterDisable := t.Current();
  }
}
