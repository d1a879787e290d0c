/** Expanding and collapsing a type (`toggleExpansion`) and showing or hiding its
    base types (`toggleIncludeBaseTypes`). */
module Expansion {
  import opened Wrappers
  import opened TypeTree

  /** `toggleExpansion`: every backing type flips, a base type only when base types are
      included; when the type ends up collapsed, every expanded child type of its fields
      is toggled too, and so collapsed in turn. */
  function ToggleExpansion(a: Aggregate): (r: Aggregate)
    ensures |r.backingTypes| == |a.backingTypes|
    ensures r.includeBaseTypes == a.includeBaseTypes && r.searchQuery == a.searchQuery && r.prepared == a.prepared
    ensures |a.backingTypes| > 0 ==> IsExpanded(r) == !IsExpanded(a)
    ensures forall i :: 0 < i < |r.backingTypes| && r.backingTypes[i].isExpanded ==> a.includeBaseTypes
    ensures forall i :: 0 <= i < |r.backingTypes| ==>
      r.backingTypes[i].typename == a.backingTypes[i].typename && r.backingTypes[i].moduleName == a.backingTypes[i].moduleName
    decreases a, 1
  {
    a.(backingTypes := ToggleSingles(a.backingTypes, true, a.includeBaseTypes, Collapsing(a)))
  }

  /** Whether a toggle leaves the type collapsed, and so collapses its children. */
  predicate Collapsing(a: Aggregate) {
    !(|a.backingTypes| > 0 && !a.backingTypes[0].isExpanded)
  }

  function ToggleSingles(bts: seq<Single>, first: bool, includeBaseTypes: bool, collapse: bool): (r: seq<Single>)
    ensures |r| == |bts|
    ensures forall k :: 0 <= k < |bts| ==> r[k] == ToggleSingle(bts[k], first && k == 0, includeBaseTypes, collapse)
    decreases bts, 1
  {
    if bts == [] then []
    else [ToggleSingle(bts[0], first, includeBaseTypes, collapse)] + ToggleSingles(bts[1..], false, includeBaseTypes, collapse)
  }

  /** One backing type of a toggle; `first` says it is the type itself rather than a base type. */
  function ToggleSingle(s: Single, first: bool, includeBaseTypes: bool, collapse: bool): (r: Single)
    ensures r.isExpanded == (!s.isExpanded && (first || includeBaseTypes))
    ensures r.typename == s.typename && r.moduleName == s.moduleName && r.prepared == s.prepared
    decreases s, 2
  {
    var t := if collapse then CollapseSingle(s) else s;
    t.(isExpanded := !s.isExpanded && (first || includeBaseTypes))
  }

  /** Collapses the expanded child types of every field of `s`; only the four collections change. */
  function CollapseSingle(s: Single): (r: Single)
    ensures r == s.(fields := r.fields, extendedFields := r.extendedFields, arrayFields := r.arrayFields, descriptions := r.descriptions)
    decreases s, 1
  {
    s.(fields := CollapseFields(s.fields), extendedFields := CollapseFields(s.extendedFields),
       arrayFields := CollapseFields(s.arrayFields), descriptions := CollapseFields(s.descriptions))
  }

  function CollapseFields(fs: seq<Field>): (r: seq<Field>)
    ensures |r| == |fs|
    decreases fs, 1
  {
    if fs == [] then [] else [CollapseField(fs[0])] + CollapseFields(fs[1..])
  }

  /** A field whose child type is expanded gets that child type toggled, hence collapsed. */
  function CollapseField(f: Field): (r: Field)
    ensures r.childType.Some? == f.childType.Some?
    ensures r.childType.Some? ==> !IsExpanded(r.childType.value)
    ensures r == f.(childType := r.childType)
    decreases f, 1
  {
    if f.childType.Some? && IsExpanded(f.childType.value) then
      f.(childType := Some(ToggleExpansion(f.childType.value)))
    else f
  }

  /** `toggleIncludeBaseTypes`: the flag is negated, the type itself keeps its expansion,
      and every base type is expanded exactly when base types are now included and
      the type itself is expanded. */
  function ToggleIncludeBaseTypes(a: Aggregate): (r: Aggregate)
    ensures r.includeBaseTypes == !a.includeBaseTypes
    ensures |r.backingTypes| == |a.backingTypes|
    ensures |a.backingTypes| > 0 ==> r.backingTypes[0] == a.backingTypes[0]
    ensures forall i :: 0 < i < |a.backingTypes| ==>
      r.backingTypes[i] == a.backingTypes[i].(isExpanded := r.includeBaseTypes && IsExpanded(a))
    ensures r.searchQuery == a.searchQuery && r.prepared == a.prepared
  {
    var included := !a.includeBaseTypes;
    a.(includeBaseTypes := included,
       backingTypes := seq(|a.backingTypes|, i requires 0 <= i < |a.backingTypes| =>
         if i == 0 then a.backingTypes[i]
         else a.backingTypes[i].(isExpanded := included && a.backingTypes[0].isExpanded)))
  }

  /** The base types are expanded exactly when they are included and the type itself is expanded. */
  predicate BaseConsistent(a: Aggregate) {
    forall i :: 0 < i < |a.backingTypes| ==>
      a.backingTypes[i].isExpanded == (a.includeBaseTypes && a.backingTypes[0].isExpanded)
  }

  lemma IncludeBaseTypesConsistent(a: Aggregate)
    ensures BaseConsistent(ToggleIncludeBaseTypes(a))
  {
  }

  /** Toggling the inclusion twice restores a type whose base types were consistent, and only those. */
  lemma IncludeBaseTypesTwice(a: Aggregate)
    ensures ToggleIncludeBaseTypes(ToggleIncludeBaseTypes(a)) == a <==> BaseConsistent(a)
  {
    var r := ToggleIncludeBaseTypes(ToggleIncludeBaseTypes(a));
    if BaseConsistent(a) {
      assert r.backingTypes == a.backingTypes;
    } else {
      var i :| 0 < i < |a.backingTypes| &&
        a.backingTypes[i].isExpanded != (a.includeBaseTypes && a.backingTypes[0].isExpanded);
      assert r.backingTypes[i] != a.backingTypes[i];
    }
  }

  lemma ToggleKeepsBaseConsistent(a: Aggregate)
    requires BaseConsistent(a)
    ensures BaseConsistent(ToggleExpansion(a))
  {
  }

  /** The expansion invariant: the base types are consistent, and a collapsed type has
      no expanded child type, at every depth. `expanded` is the owning type's expansion. */
  predicate ValidAggregate(a: Aggregate)
    decreases a, 0
  {
    BaseConsistent(a) &&
    forall i :: 0 <= i < |a.backingTypes| ==> ValidSingle(a.backingTypes[i], IsExpanded(a))
  }

  predicate ValidSingle(s: Single, expanded: bool)
    decreases s, 0
  {
    ValidFields(s.fields, expanded) && ValidFields(s.extendedFields, expanded) &&
    ValidFields(s.arrayFields, expanded) && ValidFields(s.descriptions, expanded)
  }

  predicate ValidFields(fs: seq<Field>, expanded: bool)
    decreases fs, 0
  {
    fs == [] || (ValidField(fs[0], expanded) && ValidFields(fs[1..], expanded))
  }

  predicate ValidField(f: Field, expanded: bool)
    decreases f, 0
  {
    f.childType.Some? ==> (!expanded ==> !IsExpanded(f.childType.value)) && ValidAggregate(f.childType.value)
  }

  /** No backing type is expanded, at any depth. */
  predicate NoneExpanded(a: Aggregate)
    decreases a, 0
  {
    forall i :: 0 <= i < |a.backingTypes| ==>
      !a.backingTypes[i].isExpanded && NoneExpandedSingle(a.backingTypes[i])
  }

  predicate NoneExpandedSingle(s: Single)
    decreases s, 0
  {
    NoneExpandedFields(s.fields) && NoneExpandedFields(s.extendedFields) &&
    NoneExpandedFields(s.arrayFields) && NoneExpandedFields(s.descriptions)
  }

  predicate NoneExpandedFields(fs: seq<Field>)
    decreases fs, 0
  {
    fs == [] || (NoneExpandedField(fs[0]) && NoneExpandedFields(fs[1..]))
  }

  predicate NoneExpandedField(f: Field)
    decreases f, 0
  {
    f.childType.Some? ==> NoneExpanded(f.childType.value)
  }

  lemma {:induction false} ValidFieldsWeaken(fs: seq<Field>, expanded: bool)
    requires ValidFields(fs, expanded)
    ensures ValidFields(fs, true)
    decreases fs
  {
    if fs != [] {
      ValidFieldsWeaken(fs[1..], expanded);
    }
  }

  /** `toggleExpansion` keeps the expansion invariant. */
  lemma {:induction false} ToggleKeepsValid(a: Aggregate)
    requires ValidAggregate(a)
    ensures ValidAggregate(ToggleExpansion(a))
    decreases a, 3
  {
    var r := ToggleExpansion(a);
    forall i | 0 <= i < |r.backingTypes|
      ensures ValidSingle(r.backingTypes[i], IsExpanded(r))
    {
      var s := a.backingTypes[i];
      if Collapsing(a) {
        CollapseSingleValid(s, IsExpanded(a));
      } else {
        ValidFieldsWeaken(s.fields, IsExpanded(a));
        ValidFieldsWeaken(s.extendedFields, IsExpanded(a));
        ValidFieldsWeaken(s.arrayFields, IsExpanded(a));
        ValidFieldsWeaken(s.descriptions, IsExpanded(a));
      }
    }
  }

  lemma {:induction false} CollapseSingleValid(s: Single, expanded: bool)
    requires ValidSingle(s, expanded)
    ensures ValidSingle(CollapseSingle(s), false)
    decreases s, 2
  {
    CollapseFieldsValid(s.fields, expanded);
    CollapseFieldsValid(s.extendedFields, expanded);
    CollapseFieldsValid(s.arrayFields, expanded);
    CollapseFieldsValid(s.descriptions, expanded);
  }

  lemma {:induction false} CollapseFieldsValid(fs: seq<Field>, expanded: bool)
    requires ValidFields(fs, expanded)
    ensures ValidFields(CollapseFields(fs), false)
    decreases fs, 2
  {
    if fs != [] {
      CollapseFieldValid(fs[0], expanded);
      CollapseFieldsValid(fs[1..], expanded);
      assert CollapseFields(fs)[1..] == CollapseFields(fs[1..]);
    }
  }

  lemma {:induction false} CollapseFieldValid(f: Field, expanded: bool)
    requires ValidField(f, expanded)
    ensures ValidField(CollapseField(f), false)
    decreases f, 2
  {
    if f.childType.Some? && IsExpanded(f.childType.value) {
      ToggleKeepsValid(f.childType.value);
    }
  }

  /** Under the invariant, a collapsed type has nothing expanded anywhere below it. */
  lemma {:induction false} CollapsedThroughout(a: Aggregate)
    requires ValidAggregate(a) && !IsExpanded(a)
    ensures NoneExpanded(a)
    decreases a, 3
  {
    forall i | 0 <= i < |a.backingTypes|
      ensures !a.backingTypes[i].isExpanded && NoneExpandedSingle(a.backingTypes[i])
    {
      CollapsedThroughoutSingle(a.backingTypes[i]);
    }
  }

  lemma {:induction false} CollapsedThroughoutSingle(s: Single)
    requires ValidSingle(s, false)
    ensures NoneExpandedSingle(s)
    decreases s, 2
  {
    CollapsedThroughoutFields(s.fields);
    CollapsedThroughoutFields(s.extendedFields);
    CollapsedThroughoutFields(s.arrayFields);
    CollapsedThroughoutFields(s.descriptions);
  }

  lemma {:induction false} CollapsedThroughoutFields(fs: seq<Field>)
    requires ValidFields(fs, false)
    ensures NoneExpandedFields(fs)
    decreases fs, 2
  {
    if fs != [] {
      if fs[0].childType.Some? {
        CollapsedThroughout(fs[0].childType.value);
      }
      CollapsedThroughoutFields(fs[1..]);
    }
  }

  /** On a tree that keeps the invariant, a toggle that leaves the type collapsed leaves
      every type reachable through its fields collapsed too, base types included. */
  lemma ToggleCollapsesSubtree(a: Aggregate)
    requires ValidAggregate(a) && IsExpanded(a)
    ensures !IsExpanded(ToggleExpansion(a)) && NoneExpanded(ToggleExpansion(a))
  {
    ToggleKeepsValid(a);
    CollapsedThroughout(ToggleExpansion(a));
  }

  lemma {:induction false} CollapseFieldsUnchanged(fs: seq<Field>)
    requires ValidFields(fs, false)
    ensures CollapseFields(fs) == fs
    decreases fs
  {
    if fs != [] {
      CollapseFieldsUnchanged(fs[1..]);
    }
  }

  /** Expanding a collapsed type and collapsing it again restores it exactly. */
  lemma ExpandThenCollapse(a: Aggregate)
    requires ValidAggregate(a) && !IsExpanded(a) && |a.backingTypes| > 0
    ensures ToggleExpansion(ToggleExpansion(a)) == a
  {
    var r := ToggleExpansion(a);
    var rr := ToggleExpansion(r);
    assert !Collapsing(a) && Collapsing(r);
    forall i | 0 <= i < |a.backingTypes|
      ensures rr.backingTypes[i] == a.backingTypes[i]
    {
      var s := a.backingTypes[i];
      assert ValidSingle(s, false);
      assert !s.isExpanded;
      CollapseFieldsUnchanged(s.fields);
      CollapseFieldsUnchanged(s.extendedFields);
      CollapseFieldsUnchanged(s.arrayFields);
      CollapseFieldsUnchanged(s.descriptions);
      var t := r.backingTypes[i];
      assert t == ToggleSingle(s, i == 0, a.includeBaseTypes, false);
      assert t.fields == s.fields && t.extendedFields == s.extendedFields;
      assert t.arrayFields == s.arrayFields && t.descriptions == s.descriptions;
      assert CollapseSingle(t) == t;
      assert rr.backingTypes[i] == ToggleSingle(t, i == 0, a.includeBaseTypes, true);
    }
    assert rr.backingTypes == a.backingTypes;
  }

  /** The tree with every expansion flag cleared: what expansion operations must not change. */
  function EraseAggregate(a: Aggregate): Aggregate
    decreases a, 1
  {
    a.(backingTypes := EraseSingles(a.backingTypes))
  }

  function EraseSingles(bts: seq<Single>): (r: seq<Single>)
    ensures |r| == |bts|
    ensures forall k :: 0 <= k < |bts| ==> r[k] == EraseSingle(bts[k])
    decreases bts, 1
  {
    if bts == [] then [] else [EraseSingle(bts[0])] + EraseSingles(bts[1..])
  }

  function EraseSingle(s: Single): Single
    decreases s, 1
  {
    s.(isExpanded := false, fields := EraseFields(s.fields), extendedFields := EraseFields(s.extendedFields),
       arrayFields := EraseFields(s.arrayFields), descriptions := EraseFields(s.descriptions))
  }

  function EraseFields(fs: seq<Field>): seq<Field>
    decreases fs, 1
  {
    if fs == [] then [] else [EraseField(fs[0])] + EraseFields(fs[1..])
  }

  function EraseField(f: Field): Field
    decreases f, 1
  {
    if f.childType.Some? then f.(childType := Some(EraseAggregate(f.childType.value))) else f
  }

  /** `toggleExpansion` changes expansion flags and nothing else: no field is enabled,
      disabled, renamed, added or dropped, at any depth. */
  lemma {:induction false} ToggleChangesOnlyExpansion(a: Aggregate)
    ensures EraseAggregate(ToggleExpansion(a)) == EraseAggregate(a)
    decreases a, 3
  {
    var r := ToggleExpansion(a);
    forall i | 0 <= i < |a.backingTypes|
      ensures EraseSingle(r.backingTypes[i]) == EraseSingle(a.backingTypes[i])
    {
      var s := a.backingTypes[i];
      if Collapsing(a) {
        CollapseSingleErased(s);
      }
    }
    assert EraseSingles(r.backingTypes) == EraseSingles(a.backingTypes);
  }

  lemma {:induction false} CollapseSingleErased(s: Single)
    ensures EraseSingle(CollapseSingle(s)) == EraseSingle(s)
    decreases s, 2
  {
    CollapseFieldsErased(s.fields);
    CollapseFieldsErased(s.extendedFields);
    CollapseFieldsErased(s.arrayFields);
    CollapseFieldsErased(s.descriptions);
  }

  lemma {:induction false} CollapseFieldsErased(fs: seq<Field>)
    ensures EraseFields(CollapseFields(fs)) == EraseFields(fs)
    decreases fs, 2
  {
    if fs != [] {
      CollapseFieldErased(fs[0]);
      CollapseFieldsErased(fs[1..]);
      assert CollapseFields(fs)[1..] == CollapseFields(fs[1..]);
    }
  }

  lemma {:induction false} CollapseFieldErased(f: Field)
    ensures EraseField(CollapseField(f)) == EraseField(f)
    decreases f, 2
  {
    if f.childType.Some? && IsExpanded(f.childType.value) {
      ToggleChangesOnlyExpansion(f.childType.value);
    }
  }

  /** `toggleIncludeBaseTypes` changes the flag and base-type expansion and nothing else. */
  lemma IncludeBaseTypesChangesOnlyExpansion(a: Aggregate)
    ensures EraseAggregate(ToggleIncludeBaseTypes(a)) == EraseAggregate(a).(includeBaseTypes := !a.includeBaseTypes)
  {
    var r := ToggleIncludeBaseTypes(a);
    assert EraseSingles(r.backingTypes) == EraseSingles(a.backingTypes);
  }

  /** `toggleIncludeBaseTypes` keeps the expansion invariant. */
  lemma IncludeBaseTypesKeepsValid(a: Aggregate)
    requires ValidAggregate(a)
    ensures ValidAggregate(ToggleIncludeBaseTypes(a))
  {
    var r := ToggleIncludeBaseTypes(a);
    assert IsExpanded(r) == IsExpanded(a);
    forall i | 0 <= i < |r.backingTypes|
      ensures ValidSingle(r.backingTypes[i], IsExpanded(r))
    {
      assert r.backingTypes[i].fields == a.backingTypes[i].fields;
    }
  }
}
