/** The field tree of the type explorer.

    An aggregate type is a type together with its base types; it is backed by a
    sequence of single types (index 0 is the type itself, then its base types,
    nearest first). A single type owns four field collections, and a field may own
    a child aggregate type, the type of its value. The source links these objects
    with back references (field to single type, single type to aggregate, aggregate
    to the field that owns it); here the tree is a value, and a node's ancestry is
    given by its position: the path of its owner, threaded down by the operations. */
module TypeTree {
  import opened Wrappers

  /** The collection a field lives in; the source names each collection by a property name. */
  datatype Category = Native | Extended | ArrayField | Description

  function CategoryName(c: Category): string {
    match c
    case Native => "fields"
    case Extended => "extendedFields"
    case ArrayField => "arrayFields"
    case Description => "descriptions"
  }

  /** The collection a path segment names, if any. */
  function CategoryNamed(s: string): (r: Option<Category>)
    ensures r.Some? ==> CategoryName(r.value) == s
    ensures forall c :: CategoryName(c) == s ==> r == Some(c)
  {
    if s == "fields" then Some(Native)
    else if s == "extendedFields" then Some(Extended)
    else if s == "arrayFields" then Some(ArrayField)
    else if s == "descriptions" then Some(Description)
    else None
  }

  datatype Field = Field(name: string, category: Category, isEnabled: bool, childType: Option<Aggregate>)

  datatype Single = Single(
    moduleName: string,
    typename: string,
    isExpanded: bool,
    fields: seq<Field>,
    extendedFields: seq<Field>,
    arrayFields: seq<Field>,
    descriptions: seq<Field>,
    prepared: bool)

  datatype Aggregate = Aggregate(
    backingTypes: seq<Single>,
    includeBaseTypes: bool,
    searchQuery: string,
    prepared: bool)

  function Collection(s: Single, c: Category): seq<Field> {
    match c
    case Native => s.fields
    case Extended => s.extendedFields
    case ArrayField => s.arrayFields
    case Description => s.descriptions
  }

  function WithCollection(s: Single, c: Category, fs: seq<Field>): (r: Single)
    ensures Collection(r, c) == fs
    ensures forall d :: d != c ==> Collection(r, d) == Collection(s, d)
    ensures r.moduleName == s.moduleName && r.typename == s.typename
    ensures r.isExpanded == s.isExpanded && r.prepared == s.prepared
  {
    match c
    case Native => s.(fields := fs)
    case Extended => s.(extendedFields := fs)
    case ArrayField => s.(arrayFields := fs)
    case Description => s.(descriptions := fs)
  }

  /** `forEachField`: the four collections in their fixed order. */
  function AllFields(s: Single): seq<Field> {
    s.fields + s.extendedFields + s.arrayFields + s.descriptions
  }

  lemma InAllFields(s: Single, c: Category, f: Field)
    requires f in Collection(s, c)
    ensures f in AllFields(s)
  {
  }

  /** Index 0's expansion is the aggregate's expansion. */
  predicate IsExpanded(a: Aggregate) {
    |a.backingTypes| > 0 && a.backingTypes[0].isExpanded
  }

  function NewSingle(moduleName: string, typename: string): (r: Single)
    ensures r.moduleName == moduleName && r.typename == typename
    ensures !r.isExpanded && !r.prepared && AllFields(r) == []
  {
    Single(moduleName, typename, false, [], [], [], [], false)
  }

  /** `new TypeExplorerAggregateType(module, typename, ...)`: only the type itself, not
      yet prepared, collapsed, base types excluded, no search query. */
  function NewAggregate(moduleName: string, typename: string): (r: Aggregate)
    ensures |r.backingTypes| == 1 && !IsExpanded(r) && !r.prepared
  {
    Aggregate([NewSingle(moduleName, typename)], false, "", false)
  }

  /** The child type a field gets for a type name, or none for the null type name. */
  function NewChild(moduleName: string, typeName: Option<string>): Option<Aggregate> {
    if typeName.Some? then Some(NewAggregate(moduleName, typeName.value)) else None
  }

  /** The options the session was created with. */
  datatype Config = Config(allowFieldSelection: bool, includeBaseTypesByDefault: bool)

  /** What the session's field-change callback receives: the field's path and its new state. */
  datatype Notification = Notification(path: seq<string>, isEnabled: bool)

  /** A new value of part of the tree, with the notifications raised while computing it, in order. */
  datatype Effect<T> = Effect(value: T, log: seq<Notification>)

  /** The path of a field of `s`, given the path `prefix` of the field owning `s`'s aggregate:
      the type name, the collection name and the field name are appended. */
  function FieldPath(prefix: seq<string>, s: Single, f: Field): (p: seq<string>)
    ensures |p| == |prefix| + 3 && p[..|prefix|] == prefix
  {
    prefix + [s.typename, CategoryName(f.category), f.name]
  }

  /** A field shown in a field list, with its path relative to the aggregate the list is for:
      three segments for the aggregate's own fields, more for those of descendants. */
  datatype Shown = Shown(field: Field, trail: seq<string>)

  /** Every field of the subtree, each with its path, in the order `forEachField` visits them:
      the field itself, then its child type's fields. */
  function FieldLine(path: seq<string>, f: Field): seq<Shown>
    decreases f, 1
  {
    [Shown(f, path)] + (if f.childType.Some? then AggregateLine(path, f.childType.value) else [])
  }

  function AggregateLine(prefix: seq<string>, a: Aggregate): seq<Shown>
    decreases a, 1
  {
    SinglesLine(prefix, a.backingTypes)
  }

  function SinglesLine(prefix: seq<string>, bts: seq<Single>): seq<Shown>
    decreases bts, 1
  {
    if bts == [] then []
    else SingleLine(prefix, bts[0]) + SinglesLine(prefix, bts[1..])
  }

  function SingleLine(prefix: seq<string>, s: Single): seq<Shown>
    decreases s, 1
  {
    FieldsLine(prefix, s, s.fields) + FieldsLine(prefix, s, s.extendedFields)
      + FieldsLine(prefix, s, s.arrayFields) + FieldsLine(prefix, s, s.descriptions)
  }

  function FieldsLine(prefix: seq<string>, s: Single, fs: seq<Field>): seq<Shown>
    decreases fs, 1
  {
    if fs == [] then []
    else FieldLine(FieldPath(prefix, s, fs[0]), fs[0]) + FieldsLine(prefix, s, fs[1..])
  }

  lemma {:induction false} FieldsLineAppend(prefix: seq<string>, s: Single, xs: seq<Field>, ys: seq<Field>)
    ensures FieldsLine(prefix, s, xs + ys) == FieldsLine(prefix, s, xs) + FieldsLine(prefix, s, ys)
    decreases xs
  {
    if xs != [] {
      assert (xs + ys)[1..] == xs[1..] + ys;
      FieldsLineAppend(prefix, s, xs[1..], ys);
    } else {
      assert xs + ys == ys;
    }
  }

  /** The line of a single type is the line of everything `forEachField` visits. */
  lemma SingleLineAllFields(prefix: seq<string>, s: Single)
    ensures SingleLine(prefix, s) == FieldsLine(prefix, s, AllFields(s))
  {
    FieldsLineAppend(prefix, s, s.fields, s.extendedFields);
    FieldsLineAppend(prefix, s, s.fields + s.extendedFields, s.arrayFields);
    FieldsLineAppend(prefix, s, s.fields + s.extendedFields + s.arrayFields, s.descriptions);
  }

  /** The entries that are enabled, in order. */
  function EnabledOnly(xs: seq<Shown>): (r: seq<Shown>)
    ensures forall x :: x in r <==> x in xs && x.field.isEnabled
    ensures |r| <= |xs|
  {
    if xs == [] then []
    else (if xs[0].field.isEnabled then [xs[0]] else []) + EnabledOnly(xs[1..])
  }

  lemma {:induction false} EnabledOnlyAppend(xs: seq<Shown>, ys: seq<Shown>)
    ensures EnabledOnly(xs + ys) == EnabledOnly(xs) + EnabledOnly(ys)
    decreases xs
  {
    if xs == [] {
      assert xs + ys == ys;
    } else {
      assert (xs + ys)[1..] == xs[1..] + ys;
      EnabledOnlyAppend(xs[1..], ys);
    }
  }

  /** The notifications disabling the given entries, one per entry, in order. */
  function Disables(xs: seq<Shown>): (r: seq<Notification>)
    ensures |r| == |xs|
    ensures forall i :: 0 <= i < |xs| ==> r[i] == Notification(xs[i].trail, false)
  {
    if xs == [] then [] else [Notification(xs[0].trail, false)] + Disables(xs[1..])
  }

  lemma DisablesAppend(xs: seq<Shown>, ys: seq<Shown>)
    ensures Disables(xs + ys) == Disables(xs) + Disables(ys)
  {
  }

  /** Every field sits in the collection its category names, at every depth. */
  predicate AggregateWellFormed(a: Aggregate)
    decreases a, 0
  {
    forall s | s in a.backingTypes :: SingleWellFormed(s)
  }

  predicate SingleWellFormed(s: Single)
    decreases s, 2
  {
    (forall c: Category, f | f in Collection(s, c) :: f.category == c) &&
    (forall f | f in AllFields(s) :: FieldWellFormed(f))
  }

  predicate FieldWellFormed(f: Field)
    decreases f, 0
  {
    f.childType.Some? ==> AggregateWellFormed(f.childType.value)
  }
}
