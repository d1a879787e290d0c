/** The expansion invariant `ValidAggregate`, and the well-formedness `AggregateWellFormed`
    the path lemmas require, are kept by every operation that builds or
    changes the tree, and not only by the two toggles: a new type is valid, preparation
    adds only collapsed child types, the extension listener and `setChildType` replace
    child types by new collapsed ones, and the walk of `_enableRemainingPath` prepares the
    types on its way and changes only the enabled state of the field it ends at. */
module Validity {
  import opened Wrappers
  import opened TypeTree
  import opened Lifecycle
  import opened Extensions
  import opened Expansion
  import opened Preparation
  import opened Paths

  /** Only a prepared type includes its base types, at every depth. A new type starts
      without them, and the inclusion rule runs when the type is first prepared; the base
      types pushed then are collapsed, so a type that was already showing them while
      expanded would end up with its base types out of step. */
  predicate Unincluded(a: Aggregate)
    decreases a, 0
  {
    (!a.prepared ==> !a.includeBaseTypes) &&
    forall s | s in a.backingTypes :: UnincludedSingle(s)
  }

  predicate UnincludedSingle(s: Single)
    decreases s, 2
  {
    forall f | f in AllFields(s) :: UnincludedField(f)
  }

  predicate UnincludedField(f: Field)
    decreases f, 0
  {
    f.childType.Some? ==> Unincluded(f.childType.value)
  }

  /** The invariants of a field, under an owning type of the given expansion: the
      expansion invariant, base types included only once prepared, and every field below
      in the collection its category names. */
  predicate GoodField(f: Field, expanded: bool) {
    ValidField(f, expanded) && UnincludedField(f) && FieldWellFormed(f)
  }

  predicate GoodSingle(s: Single, expanded: bool) {
    ValidSingle(s, expanded) && UnincludedSingle(s) && SingleWellFormed(s)
  }

  predicate GoodAggregate(a: Aggregate) {
    ValidAggregate(a) && Unincluded(a) && AggregateWellFormed(a)
  }

  lemma {:induction false} ValidFieldsEvery(fs: seq<Field>, expanded: bool)
    ensures ValidFields(fs, expanded) <==> forall f | f in fs :: ValidField(f, expanded)
    decreases fs
  {
    if fs != [] {
      ValidFieldsEvery(fs[1..], expanded);
      assert forall f | f in fs[1..] :: f in fs;
      if ValidFields(fs, expanded) {
        forall f | f in fs
          ensures ValidField(f, expanded)
        {
          if f != fs[0] {
            assert f in fs[1..];
          }
        }
      } else if ValidField(fs[0], expanded) {
        var f :| f in fs[1..] && !ValidField(f, expanded);
        assert f in fs;
      } else {
        assert fs[0] in fs;
      }
    }
  }

  /** What holds of a single type holds of each of its collections. */
  lemma CollectionGood(s: Single, c: Category, expanded: bool)
    requires GoodSingle(s, expanded)
    ensures forall f | f in Collection(s, c) :: GoodField(f, expanded) && f.category == c
  {
    ValidFieldsEvery(Collection(s, c), expanded);
    forall f | f in Collection(s, c)
      ensures UnincludedField(f) && FieldWellFormed(f)
    {
      InAllFields(s, c, f);
    }
  }

  /** A single type whose collections hold only good fields is good. */
  lemma SingleFromFields(s: Single, expanded: bool)
    requires forall c: Category, f | f in Collection(s, c) :: GoodField(f, expanded) && f.category == c
    ensures GoodSingle(s, expanded)
  {
    ValidFieldsEvery(s.fields, expanded);
    ValidFieldsEvery(s.extendedFields, expanded);
    ValidFieldsEvery(s.arrayFields, expanded);
    ValidFieldsEvery(s.descriptions, expanded);
    assert forall f | f in s.fields :: GoodField(f, expanded) by {
      assert Collection(s, Native) == s.fields;
    }
    assert forall f | f in s.extendedFields :: GoodField(f, expanded) by {
      assert Collection(s, Extended) == s.extendedFields;
    }
    assert forall f | f in s.arrayFields :: GoodField(f, expanded) by {
      assert Collection(s, ArrayField) == s.arrayFields;
    }
    assert forall f | f in s.descriptions :: GoodField(f, expanded) by {
      assert Collection(s, Description) == s.descriptions;
    }
  }

  /** Replacing one collection by good fields keeps a single type good. */
  lemma WithCollectionGood(s: Single, c: Category, fs: seq<Field>, expanded: bool)
    requires GoodSingle(s, expanded)
    requires forall f | f in fs :: GoodField(f, expanded) && f.category == c
    ensures GoodSingle(WithCollection(s, c, fs), expanded)
  {
    var r := WithCollection(s, c, fs);
    forall d: Category, f | f in Collection(r, d)
      ensures GoodField(f, expanded) && f.category == d
    {
      if d != c {
        CollectionGood(s, d, expanded);
      }
    }
    SingleFromFields(r, expanded);
  }

  /** A field whose child type is new, or absent, is good under any owner. */
  lemma NewChildGood(f: Field, moduleName: string, typeName: Option<string>, expanded: bool)
    requires f.childType == NewChild(moduleName, typeName)
    ensures GoodField(f, expanded)
  {
    if typeName.Some? {
      NewAggregateGood(moduleName, typeName.value);
    }
  }

  /** `new TypeExplorerAggregateType` builds a valid type that does not include its base types. */
  lemma NewAggregateGood(moduleName: string, typename: string)
    ensures GoodAggregate(NewAggregate(moduleName, typename))
  {
    var a := NewAggregate(moduleName, typename);
    assert ValidSingle(a.backingTypes[0], false);
    assert forall s | s in a.backingTypes :: AllFields(s) == [];
  }

  /** `setChildType` leaves a good field, whatever the field held before. */
  lemma SetChildTypeGood(cfg: Config, path: seq<string>, moduleName: string, f: Field, newTypeName: Option<string>, expanded: bool)
    ensures GoodField(SetChildType(cfg, path, moduleName, f, newTypeName).value, expanded)
  {
    NewChildGood(SetChildType(cfg, path, moduleName, f, newTypeName).value, moduleName, newTypeName, expanded);
  }

  lemma NativeFieldsGood(moduleName: string, ns: seq<NativeField>, expanded: bool)
    ensures forall f | f in NativeFieldsOf(moduleName, ns) :: GoodField(f, expanded) && f.category == Native
  {
    var fs := NativeFieldsOf(moduleName, ns);
    forall f | f in fs
      ensures GoodField(f, expanded) && f.category == Native
    {
      var k :| 0 <= k < |fs| && fs[k] == f;
      NewChildGood(f, moduleName, Some(StripPointers(ns[k].typeDescription)), expanded);
    }
  }

  lemma {:induction false} SeededFieldsGood(cfg: Config, s: Single, c: Category, entries: seq<(string, Extension)>, expanded: bool)
    ensures forall f | f in SeededFields(cfg, s, c, entries) :: GoodField(f, expanded) && f.category == c
    decreases |entries|
  {
    if entries != [] {
      SeededFieldsGood(cfg, s, c, entries[1..], expanded);
      var e := entries[0].1;
      var head := if e.isPrimary then [] else [ExtensionField(s, c, entries[0].0, e).(isEnabled := cfg.allowFieldSelection && e.createdHere)];
      if !e.isPrimary {
        NewChildGood(head[0], s.moduleName, ChildTypeName(e.typeName, s.typename), expanded);
      }
      assert SeededFields(cfg, s, c, entries) == head + SeededFields(cfg, s, c, entries[1..]);
    }
  }

  /** Preparing a single type appends only fields with new child types. */
  lemma PrepareSingleGood(cfg: Config, be: Backend, prefix: seq<string>, s: Single, expanded: bool)
    requires GoodSingle(s, expanded)
    ensures GoodSingle(PrepareSingle(cfg, be, prefix, s).value, expanded)
  {
    if !s.prepared {
      var r := PrepareSingle(cfg, be, prefix, s).value;
      PrepareSingleContents(cfg, be, prefix, s);
      var ref := RefOf(s);
      NativeFieldsGood(s.moduleName, be.nativeFields(ref), expanded);
      SeededFieldsGood(cfg, s, Extended, be.extensions(ref, Extended), expanded);
      SeededFieldsGood(cfg, s, Description, be.extensions(ref, Description), expanded);
      SeededFieldsGood(cfg, s, ArrayField, be.extensions(ref, ArrayField), expanded);
      forall c: Category, f | f in Collection(r, c)
        ensures GoodField(f, expanded) && f.category == c
      {
        CollectionGood(s, c, expanded);
      }
      SingleFromFields(r, expanded);
    }
  }

  /** Preparation keeps the three invariants and the type's expansion. */
  lemma PrepareAggregateGood(cfg: Config, be: Backend, prefix: seq<string>, a: Aggregate)
    requires GoodAggregate(a)
    ensures var r := PrepareAggregate(cfg, be, prefix, a).value;
      GoodAggregate(r) && IsExpanded(r) == IsExpanded(a) && |r.backingTypes| >= |a.backingTypes|
  {
    if !(a.prepared || |a.backingTypes| == 0) {
      var bases := be.baseTypes(RefOf(a.backingTypes[0]));
      var pushed := a.backingTypes + seq(|bases|, i requires 0 <= i < |bases| => NewSingle(bases[i].moduleName, bases[i].typename));
      var bts := PrepareSingles(cfg, be, prefix, pushed).value;
      var a1 := a.(backingTypes := bts);
      PrepareSinglesKeeps(cfg, be, prefix, pushed);
      forall i | 0 <= i < |bts|
        ensures GoodSingle(bts[i], IsExpanded(a))
      {
        PushedGood(a, bases, pushed, i);
        PrepareSingleGood(cfg, be, prefix, pushed[i], IsExpanded(a));
      }
      assert IsExpanded(a1) == IsExpanded(a);
      assert BaseConsistent(a1) by {
        forall i | 0 < i < |bts|
          ensures !bts[i].isExpanded
        {
          PushedGood(a, bases, pushed, i);
        }
      }
      PrepareAggregateUnfold(cfg, be, prefix, a);
      FinishGood(cfg, a1);
    }
  }

  /** The backing types before they are prepared: the type's own, each good, and the new
      single types of the base types, collapsed and empty. Base types are not included
      yet, so none of them is expanded. */
  lemma PushedGood(a: Aggregate, bases: seq<TypeRef>, pushed: seq<Single>, i: nat)
    requires GoodAggregate(a) && !a.prepared
    requires pushed == a.backingTypes + seq(|bases|, i requires 0 <= i < |bases| => NewSingle(bases[i].moduleName, bases[i].typename))
    requires i < |pushed|
    ensures GoodSingle(pushed[i], IsExpanded(a))
    ensures i > 0 ==> !pushed[i].isExpanded
  {
    if i < |a.backingTypes| {
      assert pushed[i] == a.backingTypes[i];
    } else {
      assert pushed[i] == NewSingle(bases[i - |a.backingTypes|].moduleName, bases[i - |a.backingTypes|].typename);
      assert AllFields(pushed[i]) == [];
      SingleFromFields(pushed[i], IsExpanded(a));
    }
  }

  /** The inclusion rule and the `prepared` flag keep a type good when it did not include
      its base types and none of them was expanded. */
  lemma FinishGood(cfg: Config, a1: Aggregate)
    requires |a1.backingTypes| > 0 && !a1.includeBaseTypes && BaseConsistent(a1)
    requires forall i :: 0 <= i < |a1.backingTypes| ==> GoodSingle(a1.backingTypes[i], IsExpanded(a1))
    ensures var a2 := if TogglesBaseTypes(cfg, a1) then ToggleIncludeBaseTypes(a1) else a1;
      GoodAggregate(a2.(prepared := true)) && IsExpanded(a2) == IsExpanded(a1)
  {
    IncludeBaseTypesConsistent(a1);
    var a2 := if TogglesBaseTypes(cfg, a1) then ToggleIncludeBaseTypes(a1) else a1;
    var r := a2.(prepared := true);
    forall i | 0 <= i < |r.backingTypes|
      ensures GoodSingle(r.backingTypes[i], IsExpanded(r))
    {
      assert AllFields(r.backingTypes[i]) == AllFields(a1.backingTypes[i]);
      assert forall c :: Collection(r.backingTypes[i], c) == Collection(a1.backingTypes[i], c);
    }
    assert forall s | s in r.backingTypes :: UnincludedSingle(s) && SingleWellFormed(s);
  }

  /** The extension listener keeps a single type good: an `add` appends a field with a new
      child type, a `remove` drops fields, a `rename` changes names only, and a
      `typechange` gives fields new child types. */
  lemma HandleEventGood(cfg: Config, prefix: seq<string>, s: Single, c: Category, ev: Event, expanded: bool)
    requires GoodSingle(s, expanded)
    ensures GoodSingle(HandleEvent(cfg, prefix, s, c, ev).value, expanded)
  {
    var fs := Collection(s, c);
    CollectionGood(s, c, expanded);
    match ev
    case Add(name, e) =>
      if !e.isPrimary {
        var f := ExtensionField(s, c, name, e).(isEnabled := cfg.allowFieldSelection && e.createdHere);
        NewChildGood(f, s.moduleName, ChildTypeName(e.typeName, s.typename), expanded);
        assert forall g | g in fs + [f] :: g in fs || g == f;
        WithCollectionGood(s, c, fs + [f], expanded);
      }
    case Remove(name) =>
      RemoveNamedMeaning(cfg, prefix, s, fs, name);
      WithCollectionGood(s, c, Without(fs, name), expanded);
    case Rename(name, newName) =>
      RenameGood(cfg, prefix, s, c, fs, name, newName, expanded);
      WithCollectionGood(s, c, RenameNamed(cfg, prefix, s, fs, name, newName).value, expanded);
    case TypeChange(name, t) =>
      RetypeGood(cfg, prefix, s, c, fs, name, t, expanded);
      WithCollectionGood(s, c, RetypeNamed(cfg, prefix, s, fs, name, t).value, expanded);
  }

  lemma RenameGood(cfg: Config, prefix: seq<string>, s: Single, c: Category, fs: seq<Field>, name: string, newName: string, expanded: bool)
    requires forall f | f in fs :: GoodField(f, expanded) && f.category == c
    ensures forall g | g in RenameNamed(cfg, prefix, s, fs, name, newName).value :: GoodField(g, expanded) && g.category == c
  {
    var r := RenameNamed(cfg, prefix, s, fs, name, newName).value;
    RenameNamedValue(cfg, prefix, s, fs, name, newName);
    forall g | g in r
      ensures GoodField(g, expanded) && g.category == c
    {
      var k :| 0 <= k < |r| && r[k] == g;
      assert fs[k] in fs;
    }
  }

  lemma RetypeGood(cfg: Config, prefix: seq<string>, s: Single, c: Category, fs: seq<Field>, name: string, t: Option<string>, expanded: bool)
    requires forall f | f in fs :: GoodField(f, expanded) && f.category == c
    ensures forall g | g in RetypeNamed(cfg, prefix, s, fs, name, t).value :: GoodField(g, expanded) && g.category == c
  {
    var r := RetypeNamed(cfg, prefix, s, fs, name, t).value;
    RetypeNamedValue(cfg, prefix, s, fs, name, t);
    forall g | g in r
      ensures GoodField(g, expanded) && g.category == c
    {
      var k :| 0 <= k < |r| && r[k] == g;
      assert fs[k] in fs;
      if fs[k].name == name {
        NewChildGood(g, s.moduleName, t, expanded);
      }
    }
  }

  /** The walk of `_enableRemainingPath` keeps the three invariants and the type's expansion:
      it prepares the types on its way and enables at most the field it ends at. */
  lemma {:induction false} EnableInAggregateGood(cfg: Config, be: Backend, prefix: seq<string>, a: Aggregate, path: seq<string>, i: nat)
    requires i <= |path| && GoodAggregate(a)
    ensures var r := EnableInAggregate(cfg, be, prefix, a, path, i).value;
      GoodAggregate(r) && IsExpanded(r) == IsExpanded(a)
    decreases |path| - i, 0
  {
    if i < |path| {
      var e := PrepareAggregate(cfg, be, prefix, a);
      PrepareAggregateGood(cfg, be, prefix, a);
      var bts := e.value.backingTypes;
      match FirstBacking(bts, path[i])
      case None =>
      case Some(k) =>
        var d := EnableInSingle(cfg, be, prefix, bts[k], path, i + 1);
        EnableInSingleGood(cfg, be, prefix, bts[k], path, i + 1, IsExpanded(e.value));
        ReplaceSingleGood(e.value, k, d.value);
    }
  }

  /** Replacing a backing type by a good one of the same expansion keeps a type good. */
  lemma ReplaceSingleGood(a: Aggregate, k: nat, t: Single)
    requires GoodAggregate(a) && k < |a.backingTypes|
    requires GoodSingle(t, IsExpanded(a)) && t.isExpanded == a.backingTypes[k].isExpanded
    ensures var r := a.(backingTypes := a.backingTypes[k := t]);
      GoodAggregate(r) && IsExpanded(r) == IsExpanded(a)
  {
    var r := a.(backingTypes := a.backingTypes[k := t]);
    assert IsExpanded(r) == IsExpanded(a);
    forall x | x in r.backingTypes
      ensures UnincludedSingle(x) && SingleWellFormed(x)
    {
      var m :| 0 <= m < |r.backingTypes| && r.backingTypes[m] == x;
      if m != k {
        assert a.backingTypes[m] in a.backingTypes;
      }
    }
  }

  lemma {:induction false} EnableInSingleGood(cfg: Config, be: Backend, prefix: seq<string>, s: Single, path: seq<string>, i: nat, expanded: bool)
    requires i <= |path| && GoodSingle(s, expanded)
    ensures var r := EnableInSingle(cfg, be, prefix, s, path, i).value;
      GoodSingle(r, expanded) && r.isExpanded == s.isExpanded
    decreases |path| - i, 0
  {
    if i < |path| && CategoryNamed(path[i]).Some? && i + 1 < |path| {
      var c := CategoryNamed(path[i]).value;
      var fs := Collection(s, c);
      match FirstField(fs, path[i + 1])
      case None =>
      case Some(j) =>
        CollectionGood(s, c, expanded);
        assert fs[j] in fs;
        var d := EnableInField(cfg, be, FieldPath(prefix, s, fs[j]), fs[j], path, i + 2);
        EnableInFieldGood(cfg, be, FieldPath(prefix, s, fs[j]), fs[j], path, i + 2, expanded);
        assert forall g | g in fs[j := d.value] :: g in fs || g == d.value;
        WithCollectionGood(s, c, fs[j := d.value], expanded);
    }
  }

  lemma {:induction false} EnableInFieldGood(cfg: Config, be: Backend, trail: seq<string>, f: Field, path: seq<string>, i: nat, expanded: bool)
    requires i <= |path| && GoodField(f, expanded)
    ensures var r := EnableInField(cfg, be, trail, f, path, i).value;
      GoodField(r, expanded) && r.category == f.category
    decreases |path| - i, 1
  {
    if i < |path| && f.childType.Some? {
      EnableInAggregateGood(cfg, be, trail, f.childType.value, path, i);
    }
  }

  /** `toggleExpansion` keeps the three invariants. */
  lemma ToggleExpansionGood(a: Aggregate)
    requires GoodAggregate(a)
    ensures GoodAggregate(ToggleExpansion(a))
  {
    ToggleKeepsValid(a);
    ToggleUnincluded(a);
    ToggleWellFormed(a);
  }

  /** `toggleIncludeBaseTypes` keeps the three invariants on a prepared type, the only kind
      whose inclusion the user can change. */
  lemma IncludeBaseTypesGood(a: Aggregate)
    requires GoodAggregate(a) && a.prepared
    ensures GoodAggregate(ToggleIncludeBaseTypes(a))
  {
    IncludeBaseTypesKeepsValid(a);
    var r := ToggleIncludeBaseTypes(a);
    forall x | x in r.backingTypes
      ensures UnincludedSingle(x) && SingleWellFormed(x)
    {
      var i :| 0 <= i < |r.backingTypes| && r.backingTypes[i] == x;
      var s := a.backingTypes[i];
      assert s in a.backingTypes && UnincludedSingle(s) && SingleWellFormed(s);
      assert x == s.(isExpanded := x.isExpanded);
      assert forall c :: Collection(x, c) == Collection(s, c);
      forall f | f in AllFields(x)
        ensures UnincludedField(f) && FieldWellFormed(f)
      {
        assert f in AllFields(s);
      }
    }
  }

  lemma {:induction false} ToggleUnincluded(a: Aggregate)
    requires Unincluded(a)
    ensures Unincluded(ToggleExpansion(a))
    decreases a, 3
  {
    var r := ToggleExpansion(a);
    forall x | x in r.backingTypes
      ensures UnincludedSingle(x)
    {
      var i :| 0 <= i < |r.backingTypes| && r.backingTypes[i] == x;
      var s := a.backingTypes[i];
      assert s in a.backingTypes;
      var t := if Collapsing(a) then CollapseSingle(s) else s;
      if Collapsing(a) {
        CollapseSingleUnincluded(s);
      }
      assert x == t.(isExpanded := x.isExpanded);
      forall f | f in AllFields(x)
        ensures UnincludedField(f)
      {
        assert f in AllFields(t);
      }
    }
  }

  lemma {:induction false} CollapseSingleUnincluded(s: Single)
    requires UnincludedSingle(s)
    ensures UnincludedSingle(CollapseSingle(s))
    decreases s, 2
  {
    CollapseFieldsUnincluded(s.fields);
    CollapseFieldsUnincluded(s.extendedFields);
    CollapseFieldsUnincluded(s.arrayFields);
    CollapseFieldsUnincluded(s.descriptions);
  }

  lemma {:induction false} CollapseFieldsUnincluded(fs: seq<Field>)
    requires forall f | f in fs :: UnincludedField(f)
    ensures forall f | f in CollapseFields(fs) :: UnincludedField(f)
    decreases fs, 2
  {
    if fs != [] {
      assert fs[0] in fs;
      assert forall f | f in fs[1..] :: f in fs;
      CollapseFieldUnincluded(fs[0]);
      CollapseFieldsUnincluded(fs[1..]);
      assert CollapseFields(fs) == [CollapseField(fs[0])] + CollapseFields(fs[1..]);
    }
  }

  lemma {:induction false} CollapseFieldUnincluded(f: Field)
    requires UnincludedField(f)
    ensures UnincludedField(CollapseField(f))
    decreases f, 2
  {
    if f.childType.Some? && IsExpanded(f.childType.value) {
      ToggleUnincluded(f.childType.value);
    }
  }

  /** A toggle moves no field between collections, at any depth. */
  lemma {:induction false} ToggleWellFormed(a: Aggregate)
    requires AggregateWellFormed(a)
    ensures AggregateWellFormed(ToggleExpansion(a))
    decreases a, 3
  {
    var r := ToggleExpansion(a);
    forall x | x in r.backingTypes
      ensures SingleWellFormed(x)
    {
      var i :| 0 <= i < |r.backingTypes| && r.backingTypes[i] == x;
      var s := a.backingTypes[i];
      assert s in a.backingTypes;
      var t := if Collapsing(a) then CollapseSingle(s) else s;
      if Collapsing(a) {
        CollapseSingleWellFormed(s);
      }
      assert x == t.(isExpanded := x.isExpanded);
      assert forall c :: Collection(x, c) == Collection(t, c);
      forall f | f in AllFields(x)
        ensures FieldWellFormed(f)
      {
        assert f in AllFields(t);
      }
    }
  }

  lemma {:induction false} CollapseSingleWellFormed(s: Single)
    requires SingleWellFormed(s)
    ensures SingleWellFormed(CollapseSingle(s))
    decreases s, 2
  {
    assert Collection(s, Native) == s.fields && Collection(s, Extended) == s.extendedFields;
    assert Collection(s, ArrayField) == s.arrayFields && Collection(s, Description) == s.descriptions;
    CollapseFieldsWellFormed(s.fields, Native);
    CollapseFieldsWellFormed(s.extendedFields, Extended);
    CollapseFieldsWellFormed(s.arrayFields, ArrayField);
    CollapseFieldsWellFormed(s.descriptions, Description);
    var r := CollapseSingle(s);
    assert Collection(r, Native) == r.fields && Collection(r, Extended) == r.extendedFields;
    assert Collection(r, ArrayField) == r.arrayFields && Collection(r, Description) == r.descriptions;
  }

  lemma {:induction false} CollapseFieldsWellFormed(fs: seq<Field>, c: Category)
    requires forall f | f in fs :: FieldWellFormed(f) && f.category == c
    ensures forall f | f in CollapseFields(fs) :: FieldWellFormed(f) && f.category == c
    decreases fs, 2
  {
    if fs != [] {
      assert fs[0] in fs;
      assert forall f | f in fs[1..] :: f in fs;
      CollapseFieldWellFormed(fs[0]);
      CollapseFieldsWellFormed(fs[1..], c);
      assert CollapseFields(fs) == [CollapseField(fs[0])] + CollapseFields(fs[1..]);
    }
  }

  lemma {:induction false} CollapseFieldWellFormed(f: Field)
    requires FieldWellFormed(f)
    ensures FieldWellFormed(CollapseField(f))
    decreases f, 2
  {
    if f.childType.Some? && IsExpanded(f.childType.value) {
      ToggleWellFormed(f.childType.value);
    }
  }
}
