/** Choosing what a type shows: `selectFieldsToRender` / `considerFieldWhenCollapsed`, the
    aggregate's `get...ToRender` operations, and `requiresRendering`. */
module Selection {
  import opened Wrappers
  import opened TypeTree
  import opened Arrange
  import opened Expansion

  /** The entries of the fields themselves, as an expanded type shows them. */
  function Own(prefix: seq<string>, s: Single, fs: seq<Field>): (r: seq<Shown>)
    ensures |r| == |fs| && forall k :: 0 <= k < |fs| ==> r[k] == Shown(fs[k], FieldPath(prefix, s, fs[k]))
  {
    if fs == [] then [] else [Shown(fs[0], FieldPath(prefix, s, fs[0]))] + Own(prefix, s, fs[1..])
  }

  /** What a backing type shows of one of its collections: all of it when expanded, and
      otherwise every enabled field of the collection and of the subtrees below it. */
  function Selected(prefix: seq<string>, s: Single, fs: seq<Field>): seq<Shown> {
    if s.isExpanded then Own(prefix, s, fs) else EnabledOnly(FieldsLine(prefix, s, fs))
  }

  lemma {:induction false} SinglesLineAppend(prefix: seq<string>, xs: seq<Single>, ys: seq<Single>)
    ensures SinglesLine(prefix, xs + ys) == SinglesLine(prefix, xs) + SinglesLine(prefix, ys)
    decreases xs
  {
    if xs == [] {
      assert xs + ys == ys;
    } else {
      assert (xs + ys)[1..] == xs[1..] + ys;
      SinglesLineAppend(prefix, xs[1..], ys);
    }
  }

  /** The enabled entries of a prefix of a list of fields, one field longer. */
  lemma EnabledFieldsSnoc(prefix: seq<string>, s: Single, fs: seq<Field>, j: int)
    requires 0 <= j < |fs|
    ensures EnabledOnly(FieldsLine(prefix, s, fs[..j + 1])) ==
      EnabledOnly(FieldsLine(prefix, s, fs[..j])) + EnabledOnly(FieldLine(FieldPath(prefix, s, fs[j]), fs[j]))
  {
    assert fs[..j + 1] == fs[..j] + [fs[j]];
    FieldsLineAppend(prefix, s, fs[..j], [fs[j]]);
    assert FieldsLine(prefix, s, [fs[j]]) == FieldLine(FieldPath(prefix, s, fs[j]), fs[j]);
    EnabledOnlyAppend(FieldsLine(prefix, s, fs[..j]), FieldsLine(prefix, s, [fs[j]]));
  }

  /** The enabled entries of a prefix of a list of backing types, one type longer. */
  lemma EnabledSinglesSnoc(prefix: seq<string>, bts: seq<Single>, i: int)
    requires 0 <= i < |bts|
    ensures EnabledOnly(SinglesLine(prefix, bts[..i + 1])) ==
      EnabledOnly(SinglesLine(prefix, bts[..i])) + EnabledOnly(SingleLine(prefix, bts[i]))
  {
    assert bts[..i + 1] == bts[..i] + [bts[i]];
    SinglesLineAppend(prefix, bts[..i], [bts[i]]);
    assert SinglesLine(prefix, [bts[i]]) == SingleLine(prefix, bts[i]);
    EnabledOnlyAppend(SinglesLine(prefix, bts[..i]), SinglesLine(prefix, [bts[i]]));
  }

  lemma EnabledOnlyAppend4(l1: seq<Shown>, l2: seq<Shown>, l3: seq<Shown>, l4: seq<Shown>)
    ensures EnabledOnly(l1 + l2 + l3 + l4) == EnabledOnly(l1) + EnabledOnly(l2) + EnabledOnly(l3) + EnabledOnly(l4)
  {
    EnabledOnlyAppend(l1, l2);
    EnabledOnlyAppend(l1 + l2, l3);
    EnabledOnlyAppend(l1 + l2 + l3, l4);
  }

  lemma ShownAssoc(s: seq<Shown>, e1: seq<Shown>, e2: seq<Shown>, e3: seq<Shown>, e4: seq<Shown>)
    ensures s + e1 + e2 + e3 + e4 == s + (e1 + e2 + e3 + e4)
  {
  }

  /** The enabled entries below a field: the field itself when enabled, then those of its child type. */
  lemma EnabledFieldLine(path: seq<string>, f: Field)
    ensures EnabledOnly(FieldLine(path, f)) ==
      (if f.isEnabled then [Shown(f, path)] else []) +
      (if f.childType.Some? then EnabledOnly(SinglesLine(path, f.childType.value.backingTypes)) else [])
  {
    var rest := if f.childType.Some? then AggregateLine(path, f.childType.value) else [];
    EnabledOnlyAppend([Shown(f, path)], rest);
    assert EnabledOnly([Shown(f, path)]) == if f.isEnabled then [Shown(f, path)] else [];
  }

  /** The enabled entries of a single type's line, collection by collection. */
  lemma EnabledSingleLine(prefix: seq<string>, s: Single)
    ensures EnabledOnly(SingleLine(prefix, s)) ==
      EnabledOnly(FieldsLine(prefix, s, s.fields)) + EnabledOnly(FieldsLine(prefix, s, s.extendedFields)) +
      EnabledOnly(FieldsLine(prefix, s, s.arrayFields)) + EnabledOnly(FieldsLine(prefix, s, s.descriptions))
  {
    var l1, l2, l3, l4 := FieldsLine(prefix, s, s.fields), FieldsLine(prefix, s, s.extendedFields),
      FieldsLine(prefix, s, s.arrayFields), FieldsLine(prefix, s, s.descriptions);
    assert SingleLine(prefix, s) == l1 + l2 + l3 + l4;
    EnabledOnlyAppend4(l1, l2, l3, l4);
  }

  /** `considerFieldWhenCollapsed`: appends the field if it is enabled, then considers every
      field of every backing type of its child type. */
  method ConsiderFieldWhenCollapsed(path: seq<string>, f: Field, shown: seq<Shown>) returns (r: seq<Shown>)
    ensures r == shown + EnabledOnly(FieldLine(path, f))
    decreases f, 1
  {
    var own := if f.isEnabled then [Shown(f, path)] else [];
    EnabledFieldLine(path, f);
    if f.childType.Some? {
      var bts := f.childType.value.backingTypes;
      r := ConsiderSinglesWhenCollapsed(path, bts, shown + own);
      AppendAssoc(shown, own, EnabledOnly(SinglesLine(path, bts)));
    } else {
      r := shown + own;
      assert own + [] == own;
    }
  }

  /** The child type's part of `considerFieldWhenCollapsed`: every field of every backing type. */
  method ConsiderSinglesWhenCollapsed(path: seq<string>, bts: seq<Single>, shown: seq<Shown>) returns (r: seq<Shown>)
    ensures r == shown + EnabledOnly(SinglesLine(path, bts))
    decreases bts, 1
  {
    r := shown;
    var i := 0;
    assert EnabledOnly(SinglesLine(path, bts[..0])) == [];
    while i < |bts|
      invariant 0 <= i <= |bts|
      invariant r == shown + EnabledOnly(SinglesLine(path, bts[..i]))
    {
      r := ForEachFieldWhenCollapsed(path, bts[i], r);
      EnabledSinglesSnoc(path, bts, i);
      AppendAssoc(shown, EnabledOnly(SinglesLine(path, bts[..i])), EnabledOnly(SingleLine(path, bts[i])));
      i := i + 1;
    }
    assert bts[..i] == bts;
  }

  /** `backingType.forEachField(f => considerFieldWhenCollapsed(f, shownFields))`: the four
      collections in order. */
  method ForEachFieldWhenCollapsed(prefix: seq<string>, bt: Single, shown: seq<Shown>) returns (r: seq<Shown>)
    ensures r == shown + EnabledOnly(SingleLine(prefix, bt))
    decreases bt, 1
  {
    var l1, l2, l3, l4 := FieldsLine(prefix, bt, bt.fields), FieldsLine(prefix, bt, bt.extendedFields),
      FieldsLine(prefix, bt, bt.arrayFields), FieldsLine(prefix, bt, bt.descriptions);
    var r1 := ConsiderFieldsWhenCollapsed(prefix, bt, bt.fields, shown);
    var r2 := ConsiderFieldsWhenCollapsed(prefix, bt, bt.extendedFields, r1);
    var r3 := ConsiderFieldsWhenCollapsed(prefix, bt, bt.arrayFields, r2);
    r := ConsiderFieldsWhenCollapsed(prefix, bt, bt.descriptions, r3);
    EnabledSingleLine(prefix, bt);
    ShownAssoc(shown, EnabledOnly(l1), EnabledOnly(l2), EnabledOnly(l3), EnabledOnly(l4));
  }

  /** Considers each field of one list when collapsed, in order. */
  method ConsiderFieldsWhenCollapsed(prefix: seq<string>, s: Single, fs: seq<Field>, shown: seq<Shown>) returns (r: seq<Shown>)
    ensures r == shown + EnabledOnly(FieldsLine(prefix, s, fs))
    decreases fs, 1
  {
    r := shown;
    var j := 0;
    while j < |fs|
      invariant 0 <= j <= |fs|
      invariant r == shown + EnabledOnly(FieldsLine(prefix, s, fs[..j]))
    {
      r := ConsiderFieldWhenCollapsed(FieldPath(prefix, s, fs[j]), fs[j], r);
      EnabledFieldsSnoc(prefix, s, fs, j);
      AppendAssoc(shown, EnabledOnly(FieldsLine(prefix, s, fs[..j])), EnabledOnly(FieldLine(FieldPath(prefix, s, fs[j]), fs[j])));
      j := j + 1;
    }
    assert fs[..j] == fs;
  }

  /** `selectFieldsToRender`: the list itself when the backing type is expanded, and
      otherwise what considering each of its fields when collapsed collects. */
  method SelectFieldsToRender(prefix: seq<string>, s: Single, fs: seq<Field>) returns (r: seq<Shown>)
    ensures r == Selected(prefix, s, fs)
  {
    if s.isExpanded {
      r := Own(prefix, s, fs);
    } else {
      r := ConsiderFieldsWhenCollapsed(prefix, s, fs, []);
    }
  }

  /** An expanded backing type shows exactly its own list, in order. */
  lemma SelectedExpanded(prefix: seq<string>, s: Single, fs: seq<Field>)
    requires s.isExpanded
    ensures |Selected(prefix, s, fs)| == |fs|
    ensures forall k :: 0 <= k < |fs| ==> Selected(prefix, s, fs)[k].field == fs[k]
  {
  }

  /** A collapsed backing type shows an entry exactly when it is an enabled field of the list
      or of a subtree below it, and shows each of its own enabled fields under its own path. */
  lemma SelectedCollapsed(prefix: seq<string>, s: Single, fs: seq<Field>)
    requires !s.isExpanded
    ensures forall x :: x in Selected(prefix, s, fs) <==> x in FieldsLine(prefix, s, fs) && x.field.isEnabled
    ensures forall k :: 0 <= k < |fs| && fs[k].isEnabled ==> Shown(fs[k], FieldPath(prefix, s, fs[k])) in Selected(prefix, s, fs)
  {
    forall k | 0 <= k < |fs| && fs[k].isEnabled
      ensures Shown(fs[k], FieldPath(prefix, s, fs[k])) in FieldsLine(prefix, s, fs)
    {
      OwnInLine(prefix, s, fs, k);
    }
  }

  lemma {:induction false} OwnInLine(prefix: seq<string>, s: Single, fs: seq<Field>, k: int)
    requires 0 <= k < |fs|
    ensures Shown(fs[k], FieldPath(prefix, s, fs[k])) in FieldsLine(prefix, s, fs)
    decreases k
  {
    if k > 0 {
      OwnInLine(prefix, s, fs[1..], k - 1);
    }
  }

  /** The lists an aggregate passes to `arrangeFields`: what each backing type selects from
      the collection. Paths are relative to the aggregate being rendered. */
  function SelectedLists(a: Aggregate, c: Category): (r: seq<seq<Shown>>)
    ensures |r| == |a.backingTypes|
    ensures forall i :: 0 <= i < |r| ==> r[i] == Selected([], a.backingTypes[i], Collection(a.backingTypes[i], c))
  {
    seq(|a.backingTypes|, i requires 0 <= i < |a.backingTypes| =>
      Selected([], a.backingTypes[i], Collection(a.backingTypes[i], c)))
  }

  /** `getFieldsToRender` and its three siblings, one per category. */
  function FieldsToRender(a: Aggregate, c: Category): seq<Shown> {
    Arranged(SelectedLists(a, c), a.searchQuery)
  }

  method GetFieldsToRender(a: Aggregate, c: Category) returns (r: seq<Shown>)
    ensures r == FieldsToRender(a, c)
  {
    var lists: seq<seq<Shown>> := [];
    var i := 0;
    while i < |a.backingTypes|
      invariant 0 <= i <= |a.backingTypes|
      invariant lists == SelectedLists(a, c)[..i]
    {
      var bt := a.backingTypes[i];
      var selected := SelectFieldsToRender([], bt, Collection(bt, c));
      lists := lists + [selected];
      i := i + 1;
    }
    assert lists == SelectedLists(a, c);
    r := ArrangeFields(lists, a.searchQuery);
  }

  /** Without a query, the list shown is the per-type selections with the base types first,
      most distant first, and nothing added or dropped. */
  lemma FieldsToRenderWithoutQuery(a: Aggregate, c: Category)
    requires a.searchQuery == ""
    ensures FieldsToRender(a, c) == Flatten(Reversed(SelectedLists(a, c)))
  {
    ArrangedWithoutQuery(SelectedLists(a, c));
  }

  /** `requiresRendering` of an aggregate: expanded, or some backing type requires it. */
  predicate AggregateRequiresRendering(a: Aggregate)
    decreases a, 1
  {
    IsExpanded(a) || SinglesRequireRendering(a.backingTypes)
  }

  predicate SinglesRequireRendering(bts: seq<Single>)
    decreases bts, 1
  {
    bts != [] && (SingleRequiresRendering(bts[0]) || SinglesRequireRendering(bts[1..]))
  }

  /** `requiresRendering` of a single type: some field is enabled, or has a child type that
      requires rendering. */
  predicate SingleRequiresRendering(s: Single)
    decreases s, 1
  {
    FieldsRequireRendering(s.fields) || FieldsRequireRendering(s.extendedFields) ||
    FieldsRequireRendering(s.arrayFields) || FieldsRequireRendering(s.descriptions)
  }

  predicate FieldsRequireRendering(fs: seq<Field>)
    decreases fs, 1
  {
    fs != [] && (FieldRequiresRendering(fs[0]) || FieldsRequireRendering(fs[1..]))
  }

  predicate FieldRequiresRendering(f: Field)
    decreases f, 1
  {
    f.isEnabled || (f.childType.Some? && AggregateRequiresRendering(f.childType.value))
  }

  lemma {:induction false} FieldsRequireRenderingAppend(xs: seq<Field>, ys: seq<Field>)
    ensures FieldsRequireRendering(xs + ys) == (FieldsRequireRendering(xs) || FieldsRequireRendering(ys))
    decreases xs
  {
    if xs == [] {
      assert xs + ys == ys;
    } else {
      assert (xs + ys)[1..] == xs[1..] + ys;
      FieldsRequireRenderingAppend(xs[1..], ys);
    }
  }

  /** An entry of a field line that makes its owner need rendering: an enabled field, or a
      field whose child type is expanded. */
  predicate Demands(x: Shown) {
    x.field.isEnabled || (x.field.childType.Some? && IsExpanded(x.field.childType.value))
  }

  /** A type requires rendering exactly when, at some depth below it, a field is enabled or
      a child type is expanded. */
  lemma {:induction false} FieldRequiresRenderingMeaning(path: seq<string>, f: Field)
    ensures FieldRequiresRendering(f) <==> exists x :: x in FieldLine(path, f) && Demands(x)
    decreases f, 1
  {
    assert Shown(f, path) in FieldLine(path, f);
    if f.childType.Some? {
      SinglesRequireRenderingMeaning(path, f.childType.value.backingTypes);
    }
  }

  lemma {:induction false} SinglesRequireRenderingMeaning(prefix: seq<string>, bts: seq<Single>)
    ensures SinglesRequireRendering(bts) <==> exists x :: x in SinglesLine(prefix, bts) && Demands(x)
    decreases bts, 1
  {
    if bts != [] {
      SingleRequiresRenderingMeaning(prefix, bts[0]);
      SinglesRequireRenderingMeaning(prefix, bts[1..]);
    }
  }

  lemma {:induction false} SingleRequiresRenderingMeaning(prefix: seq<string>, s: Single)
    ensures SingleRequiresRendering(s) <==> exists x :: x in SingleLine(prefix, s) && Demands(x)
    decreases s, 1
  {
    FieldsRequireRenderingMeaning(prefix, s, s.fields);
    FieldsRequireRenderingMeaning(prefix, s, s.extendedFields);
    FieldsRequireRenderingMeaning(prefix, s, s.arrayFields);
    FieldsRequireRenderingMeaning(prefix, s, s.descriptions);
  }

  lemma {:induction false} FieldsRequireRenderingMeaning(prefix: seq<string>, s: Single, fs: seq<Field>)
    ensures FieldsRequireRendering(fs) <==> exists x :: x in FieldsLine(prefix, s, fs) && Demands(x)
    decreases fs, 1
  {
    if fs != [] {
      FieldRequiresRenderingMeaning(FieldPath(prefix, s, fs[0]), fs[0]);
      FieldsRequireRenderingMeaning(prefix, s, fs[1..]);
    }
  }

  /** When no type below is expanded, a single type requires rendering exactly when some
      field at some depth below it is enabled. */
  lemma SingleRequiresRenderingWhenCollapsed(prefix: seq<string>, s: Single)
    requires NoneExpandedSingle(s)
    ensures SingleRequiresRendering(s) <==> EnabledOnly(SingleLine(prefix, s)) != []
  {
    SingleRequiresRenderingMeaning(prefix, s);
    NoneExpandedSingleLine(prefix, s);
    if SingleRequiresRendering(s) {
      var x :| x in SingleLine(prefix, s) && Demands(x);
      assert x in EnabledOnly(SingleLine(prefix, s));
    } else if EnabledOnly(SingleLine(prefix, s)) != [] {
      var x := EnabledOnly(SingleLine(prefix, s))[0];
      assert x in EnabledOnly(SingleLine(prefix, s));
      assert Demands(x);
    }
  }

  /** Nothing expanded below: no entry of the line has an expanded child type. */
  lemma {:induction false} NoneExpandedSingleLine(prefix: seq<string>, s: Single)
    requires NoneExpandedSingle(s)
    ensures forall x | x in SingleLine(prefix, s) :: x.field.childType.Some? ==> !IsExpanded(x.field.childType.value)
    decreases s, 1
  {
    NoneExpandedFieldsLine(prefix, s, s.fields);
    NoneExpandedFieldsLine(prefix, s, s.extendedFields);
    NoneExpandedFieldsLine(prefix, s, s.arrayFields);
    NoneExpandedFieldsLine(prefix, s, s.descriptions);
  }

  lemma {:induction false} NoneExpandedFieldsLine(prefix: seq<string>, s: Single, fs: seq<Field>)
    requires NoneExpandedFields(fs)
    ensures forall x | x in FieldsLine(prefix, s, fs) :: x.field.childType.Some? ==> !IsExpanded(x.field.childType.value)
    decreases fs, 1
  {
    if fs != [] {
      var f := fs[0];
      var p := FieldPath(prefix, s, f);
      assert NoneExpandedField(f) && NoneExpandedFields(fs[1..]);
      NoneExpandedFieldsLine(prefix, s, fs[1..]);
      assert FieldsLine(prefix, s, fs) == FieldLine(p, f) + FieldsLine(prefix, s, fs[1..]);
      if f.childType.Some? {
        var child := f.childType.value;
        assert NoneExpanded(child);
        NoneExpandedSinglesLine(p, child.backingTypes);
        assert FieldLine(p, f) == [Shown(f, p)] + SinglesLine(p, child.backingTypes);
      }
    }
  }

  lemma {:induction false} NoneExpandedSinglesLine(prefix: seq<string>, bts: seq<Single>)
    requires forall i :: 0 <= i < |bts| ==> !bts[i].isExpanded && NoneExpandedSingle(bts[i])
    ensures forall x | x in SinglesLine(prefix, bts) :: x.field.childType.Some? ==> !IsExpanded(x.field.childType.value)
    decreases bts, 1
  {
    if bts != [] {
      NoneExpandedSingleLine(prefix, bts[0]);
      NoneExpandedSinglesLine(prefix, bts[1..]);
    }
  }

  /** Aggregate `requiresRendering`: true at once when expanded, otherwise accumulated over
      the backing types. */
  method RequiresRenderingAggregate(a: Aggregate) returns (b: bool)
    ensures b == AggregateRequiresRendering(a)
    decreases a, 1
  {
    if IsExpanded(a) {
      return true;
    }
    var bts := a.backingTypes;
    b := false;
    var i := 0;
    while i < |bts|
      invariant 0 <= i <= |bts|
      invariant b == SinglesRequireRendering(bts[..i])
    {
      var one := RequiresRenderingSingle(bts[i]);
      b := b || one;
      SinglesRequireAppend(bts[..i], bts[i]);
      assert bts[..i + 1] == bts[..i] + [bts[i]];
      i := i + 1;
    }
    assert bts[..i] == bts;
  }

  lemma {:induction false} SinglesRequireAppend(xs: seq<Single>, y: Single)
    ensures SinglesRequireRendering(xs + [y]) == (SinglesRequireRendering(xs) || SingleRequiresRendering(y))
    decreases xs
  {
    if xs == [] {
      assert ([y])[1..] == [];
    } else {
      assert (xs + [y])[1..] == xs[1..] + [y];
      SinglesRequireAppend(xs[1..], y);
    }
  }

  /** Single type `requiresRendering`: a `forEachField` loop with an accumulator. */
  method RequiresRenderingSingle(s: Single) returns (b: bool)
    ensures b == SingleRequiresRendering(s)
    decreases s, 0
  {
    var fs := AllFields(s);
    b := false;
    var i := 0;
    while i < |fs|
      invariant 0 <= i <= |fs|
      invariant b == FieldsRequireRendering(fs[..i])
    {
      var f := fs[i];
      assert f in s.fields || f in s.extendedFields || f in s.arrayFields || f in s.descriptions;
      if f.isEnabled {
        b := true;
      } else if f.childType.Some? {
        var child := RequiresRenderingAggregate(f.childType.value);
        b := b || child;
      }
      assert fs[..i + 1] == fs[..i] + [f];
      FieldsRequireRenderingAppend(fs[..i], [f]);
      assert FieldsRequireRendering([f]) == FieldRequiresRendering(f);
      i := i + 1;
    }
    assert fs[..i] == fs;
    FieldsRequireRenderingAppend(s.fields, s.extendedFields);
    FieldsRequireRenderingAppend(s.fields + s.extendedFields, s.arrayFields);
    FieldsRequireRenderingAppend(s.fields + s.extendedFields + s.arrayFields, s.descriptions);
  }
}
