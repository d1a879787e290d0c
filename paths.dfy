/** Naming a field by a path of strings and finding it again: the controller's
    `_computePath` / `_appendPath`, which spell a field's position from the root type
    down, and `_enableRemainingPath`, which follows such a path, preparing each type it
    passes through, and enables the field it ends at. */
module Paths {
  import opened Wrappers
  import opened TypeTree
  import opened Lifecycle
  import opened Preparation

  /** One level of a field's position below an aggregate type: the backing type, the
      collection and the position in that collection. */
  datatype Step = Step(backing: nat, category: Category, index: nat)

  /** `loc` leads from `a` to a field: every step is in range and every step but the
      last arrives at a field with a child type. */
  predicate Locates(a: Aggregate, loc: seq<Step>)
    decreases a
  {
    |loc| > 0 &&
    loc[0].backing < |a.backingTypes| &&
    var s := a.backingTypes[loc[0].backing];
    loc[0].index < |Collection(s, loc[0].category)| &&
    var f := Collection(s, loc[0].category)[loc[0].index];
    (|loc| > 1 ==> f.childType.Some? && Locates(f.childType.value, loc[1..]))
  }

  /** The field of the first step. */
  function Head(a: Aggregate, loc: seq<Step>): Field
    requires Locates(a, loc)
  {
    Collection(a.backingTypes[loc[0].backing], loc[0].category)[loc[0].index]
  }

  function FieldAt(a: Aggregate, loc: seq<Step>): Field
    requires Locates(a, loc)
    decreases a
  {
    var f := Head(a, loc);
    if |loc| == 1 then f else FieldAt(f.childType.value, loc[1..])
  }

  /** `_computePath`: for every level from the root down, the backing type's name, the name
      of the collection the field came from, and the field's name. */
  function ComputePath(a: Aggregate, loc: seq<Step>): (r: seq<string>)
    requires Locates(a, loc)
    ensures |r| == 3 * |loc|
    decreases a
  {
    var f := Head(a, loc);
    var own := [a.backingTypes[loc[0].backing].typename, CategoryName(f.category), f.name];
    if |loc| == 1 then own else own + ComputePath(f.childType.value, loc[1..])
  }

  /** The segments of the first level: the backing type's, the collection's and the field's name. */
  function OwnSegments(a: Aggregate, loc: seq<Step>): seq<string>
    requires Locates(a, loc)
  {
    [a.backingTypes[loc[0].backing].typename, CategoryName(Head(a, loc).category), Head(a, loc).name]
  }

  /** The tree with the located field replaced by `g`. */
  function WithFieldAt(a: Aggregate, loc: seq<Step>, g: Field): (r: Aggregate)
    requires Locates(a, loc)
    ensures |r.backingTypes| == |a.backingTypes|
    ensures r.includeBaseTypes == a.includeBaseTypes && r.searchQuery == a.searchQuery && r.prepared == a.prepared
    decreases a
  {
    var st := loc[0];
    var s := a.backingTypes[st.backing];
    var fs := Collection(s, st.category);
    var f := fs[st.index];
    var g' := if |loc| == 1 then g else f.(childType := Some(WithFieldAt(f.childType.value, loc[1..], g)));
    a.(backingTypes := a.backingTypes[st.backing := WithCollection(s, st.category, fs[st.index := g'])])
  }

  /** Replacing a field leaves the path to it in place and puts `g` there. */
  lemma {:induction false} WithFieldAtPuts(a: Aggregate, loc: seq<Step>, g: Field)
    requires Locates(a, loc)
    requires |loc| > 1 ==> g.childType == FieldAt(a, loc).childType
    ensures Locates(WithFieldAt(a, loc, g), loc)
    ensures FieldAt(WithFieldAt(a, loc, g), loc) == g
    decreases a
  {
    var st := loc[0];
    var s := a.backingTypes[st.backing];
    var fs := Collection(s, st.category);
    var f := fs[st.index];
    var r := WithFieldAt(a, loc, g);
    if |loc| == 1 {
      assert Head(r, loc) == g;
    } else {
      WithFieldAtPuts(f.childType.value, loc[1..], g);
      assert Head(r, loc) == f.(childType := Some(WithFieldAt(f.childType.value, loc[1..], g)));
    }
  }

  /** The first position whose element has the given name under `key`, as the source's
      search loops find it. */
  function FirstOf<T>(xs: seq<T>, key: T -> string, name: string): (r: Option<nat>)
    ensures r.Some? ==> r.value < |xs| && key(xs[r.value]) == name
    ensures r.Some? ==> forall k :: 0 <= k < r.value ==> key(xs[k]) != name
    ensures r.None? ==> forall k :: 0 <= k < |xs| ==> key(xs[k]) != name
  {
    if xs == [] then None
    else if key(xs[0]) == name then Some(0)
    else match FirstOf(xs[1..], key, name)
      case None => None
      case Some(k) => Some(k + 1)
  }

  function TypenameOf(s: Single): string { s.typename }

  function NameOf(f: Field): string { f.name }

  /** First position whose backing type has the given name. */
  function FirstBacking(bts: seq<Single>, typename: string): (r: Option<nat>)
    ensures r.Some? ==> r.value < |bts| && bts[r.value].typename == typename
    ensures r.Some? ==> forall k :: 0 <= k < r.value ==> bts[k].typename != typename
    ensures r.None? ==> forall k :: 0 <= k < |bts| ==> bts[k].typename != typename
  {
    FirstOf(bts, TypenameOf, typename)
  }

  /** First position whose field has the given name. */
  function FirstField(fs: seq<Field>, name: string): (r: Option<nat>)
    ensures r.Some? ==> r.value < |fs| && fs[r.value].name == name
    ensures r.Some? ==> forall k :: 0 <= k < r.value ==> fs[k].name != name
    ensures r.None? ==> forall k :: 0 <= k < |fs| ==> fs[k].name != name
  {
    FirstOf(fs, NameOf, name)
  }

  /** The search loop over a prepared aggregate's backing types, or over a collection. */
  method FindFirst<T>(xs: seq<T>, key: T -> string, name: string) returns (r: Option<nat>)
    ensures r == FirstOf(xs, key, name)
  {
    var i := 0;
    while i < |xs|
      invariant 0 <= i <= |xs|
      invariant forall k :: 0 <= k < i ==> key(xs[k]) != name
    {
      if key(xs[i]) == name {
        return Some(i);
      }
      i := i + 1;
    }
    return None;
  }

  /** `_enableRemainingPath` at an aggregate type: nothing at the end of the path;
      otherwise the type is prepared and the path goes on in its first backing type of
      the next name, if there is one. */
  function EnableInAggregate(cfg: Config, be: Backend, prefix: seq<string>, a: Aggregate, path: seq<string>, i: nat): (r: Effect<Aggregate>)
    requires i <= |path|
    ensures i == |path| ==> r == Effect(a, [])
    ensures i < |path| && |a.backingTypes| > 0 ==> r.value.prepared
    ensures r.value.searchQuery == a.searchQuery
    decreases |path| - i, 0
  {
    if i == |path| then Effect(a, [])
    else
      var e := PrepareAggregate(cfg, be, prefix, a);
      var bts := e.value.backingTypes;
      match FirstBacking(bts, path[i])
      case None => e
      case Some(k) =>
        var d := EnableInSingle(cfg, be, prefix, bts[k], path, i + 1);
        Effect(e.value.(backingTypes := bts[k := d.value]), e.log + d.log)
  }

  /** At a single type: the segment names a collection, and the next segment a field of it,
      where the path goes on. A segment that names no collection, or a path that stops
      here, reaches nothing. */
  function EnableInSingle(cfg: Config, be: Backend, prefix: seq<string>, s: Single, path: seq<string>, i: nat): (r: Effect<Single>)
    requires i <= |path|
    ensures r.value.typename == s.typename && r.value.moduleName == s.moduleName
    ensures r.value.isExpanded == s.isExpanded && r.value.prepared == s.prepared
    ensures forall c :: |Collection(r.value, c)| == |Collection(s, c)|
    decreases |path| - i, 0
  {
    if i == |path| then Effect(s, [])
    else match CategoryNamed(path[i])
      case None => Effect(s, [])
      case Some(c) =>
        if i + 1 == |path| then Effect(s, [])
        else
          var fs := Collection(s, c);
          match FirstField(fs, path[i + 1])
          case None => Effect(s, [])
          case Some(j) =>
            var d := EnableInField(cfg, be, FieldPath(prefix, s, fs[j]), fs[j], path, i + 2);
            Effect(WithCollection(s, c, fs[j := d.value]), d.log)
  }

  /** At a field: at the end of the path the field is enabled; otherwise the path goes on
      in its child type, and a field without one reaches nothing. */
  function EnableInField(cfg: Config, be: Backend, trail: seq<string>, f: Field, path: seq<string>, i: nat): (r: Effect<Field>)
    requires i <= |path|
    ensures r.value.name == f.name && r.value.category == f.category
    ensures r.value.childType.Some? == f.childType.Some?
    ensures i == |path| ==> r.value.isEnabled == (f.isEnabled || cfg.allowFieldSelection)
    decreases |path| - i, 1
  {
    if i == |path| then SetIsEnabled(cfg, trail, f, true)
    else if f.childType.None? then Effect(f, [])
    else
      var d := EnableInAggregate(cfg, be, trail, f.childType.value, path, i);
      Effect(f.(childType := Some(d.value)), d.log)
  }

  /** The location a path names in a tree, reading three segments per level and taking the
      first match at each. */
  function Locate(a: Aggregate, path: seq<string>, i: nat): (r: Option<seq<Step>>)
    requires i <= |path|
    ensures r.Some? ==> |r.value| > 0 && |path| - i == 3 * |r.value|
    decreases |path| - i
  {
    if i + 3 > |path| then None
    else match FirstBacking(a.backingTypes, path[i])
      case None => None
      case Some(k) =>
        match CategoryNamed(path[i + 1])
        case None => None
        case Some(c) =>
          var fs := Collection(a.backingTypes[k], c);
          match FirstField(fs, path[i + 2])
          case None => None
          case Some(j) =>
            if i + 3 == |path| then Some([Step(k, c, j)])
            else if fs[j].childType.None? then None
            else match Locate(fs[j].childType.value, path, i + 3)
              case None => None
              case Some(rest) => Some([Step(k, c, j)] + rest)
  }

  /** Every aggregate type the walk of `path[i..]` passes through is already prepared, or
      released: the types `Locate` would visit, down to where it stops. */
  predicate ReadyAlong(a: Aggregate, path: seq<string>, i: nat)
    requires i <= |path|
    decreases |path| - i
  {
    i < |path| ==>
      (a.prepared || |a.backingTypes| == 0) &&
      match FirstBacking(a.backingTypes, path[i])
      case None => true
      case Some(k) =>
        (i + 3 < |path| && CategoryNamed(path[i + 1]).Some?) ==>
          (var fs := Collection(a.backingTypes[k], CategoryNamed(path[i + 1]).value);
           match FirstField(fs, path[i + 2])
           case None => true
           case Some(j) => fs[j].childType.Some? ==> ReadyAlong(fs[j].childType.value, path, i + 3))
  }

  /** Every aggregate type on the way to the located field is already prepared, or released. */
  predicate ReadyTo(a: Aggregate, loc: seq<Step>)
    requires Locates(a, loc)
    decreases a
  {
    (a.prepared || |a.backingTypes| == 0) &&
    (|loc| > 1 ==> ReadyTo(Head(a, loc).childType.value, loc[1..]))
  }

  /** No step can be mistaken for an earlier one: each backing type is the first of its
      name, and each field the first of its name in its collection. */
  predicate Unambiguous(a: Aggregate, loc: seq<Step>)
    requires Locates(a, loc)
    decreases a
  {
    var st := loc[0];
    var s := a.backingTypes[st.backing];
    var f := Head(a, loc);
    FirstBacking(a.backingTypes, s.typename) == Some(st.backing) &&
    FirstField(Collection(s, st.category), f.name) == Some(st.index) &&
    (|loc| > 1 ==> Unambiguous(f.childType.value, loc[1..]))
  }

  lemma WithCollectionSame(s: Single, c: Category)
    ensures WithCollection(s, c, Collection(s, c)) == s
  {
  }

  lemma FormedBelow(s: Single, c: Category, j: nat)
    requires SingleWellFormed(s) && j < |Collection(s, c)|
    ensures Collection(s, c)[j].category == c
    ensures FieldWellFormed(Collection(s, c)[j])
  {
    InAllFields(s, c, Collection(s, c)[j]);
  }

  /** What a successful `Locate` found at its first level. */
  lemma LocateFirst(a: Aggregate, path: seq<string>, i: nat) returns (k: nat, c: Category, j: nat)
    requires i <= |path| && Locate(a, path, i).Some?
    ensures i + 3 <= |path|
    ensures FirstBacking(a.backingTypes, path[i]) == Some(k) && CategoryNamed(path[i + 1]) == Some(c)
    ensures FirstField(Collection(a.backingTypes[k], c), path[i + 2]) == Some(j)
    ensures var f := Collection(a.backingTypes[k], c)[j];
      if i + 3 == |path| then Locate(a, path, i) == Some([Step(k, c, j)])
      else (f.childType.Some? && Locate(f.childType.value, path, i + 3).Some? &&
            Locate(a, path, i) == Some([Step(k, c, j)] + Locate(f.childType.value, path, i + 3).value))
  {
    k := FirstBacking(a.backingTypes, path[i]).value;
    c := CategoryNamed(path[i + 1]).value;
    j := FirstField(Collection(a.backingTypes[k], c), path[i + 2]).value;
  }

  /** A path found in a tree leads to a field, by first matches only, and is spelled by
      `_computePath` exactly as given. */
  lemma {:induction false} LocateSound(a: Aggregate, path: seq<string>, i: nat)
    requires AggregateWellFormed(a)
    requires i <= |path| && Locate(a, path, i).Some?
    ensures var loc := Locate(a, path, i).value;
      Locates(a, loc) && Unambiguous(a, loc) && ComputePath(a, loc) == path[i..]
    decreases |path| - i
  {
    var k, c, j := LocateFirst(a, path, i);
    FormedBelow(a.backingTypes[k], c, j);
    if i + 3 < |path| {
      LocateSound(Collection(a.backingTypes[k], c)[j].childType.value, path, i + 3);
    }
    SoundStep(a, path, i, k, c, j);
  }

  /** One level of `LocateSound`: the first matches at this level, followed by a sound rest. */
  lemma SoundStep(a: Aggregate, path: seq<string>, i: nat, k: nat, c: Category, j: nat)
    requires AggregateWellFormed(a)
    requires i + 3 <= |path|
    requires FirstBacking(a.backingTypes, path[i]) == Some(k) && CategoryNamed(path[i + 1]) == Some(c)
    requires FirstField(Collection(a.backingTypes[k], c), path[i + 2]) == Some(j)
    requires var f := Collection(a.backingTypes[k], c)[j];
      i + 3 < |path| ==>
        (f.childType.Some? && Locate(f.childType.value, path, i + 3).Some? &&
         var rest := Locate(f.childType.value, path, i + 3).value;
         Locates(f.childType.value, rest) && Unambiguous(f.childType.value, rest) &&
         ComputePath(f.childType.value, rest) == path[i + 3..])
    ensures var f := Collection(a.backingTypes[k], c)[j];
      var loc := if i + 3 == |path| then [Step(k, c, j)] else [Step(k, c, j)] + Locate(f.childType.value, path, i + 3).value;
      Locates(a, loc) && Unambiguous(a, loc) && ComputePath(a, loc) == path[i..]
  {
    var s := a.backingTypes[k];
    var f := Collection(s, c)[j];
    FormedBelow(s, c, j);
    assert [s.typename, CategoryName(f.category), f.name] == path[i..i + 3];
    if i + 3 < |path| {
      SoundCons(a, path, i, k, c, j, Locate(f.childType.value, path, i + 3).value);
    } else {
      SoundLeaf(a, path, i, k, c, j);
    }
  }

  lemma SoundLeaf(a: Aggregate, path: seq<string>, i: nat, k: nat, c: Category, j: nat)
    requires i + 3 == |path| && k < |a.backingTypes| && j < |Collection(a.backingTypes[k], c)|
    requires FirstBacking(a.backingTypes, path[i]) == Some(k)
    requires FirstField(Collection(a.backingTypes[k], c), path[i + 2]) == Some(j)
    requires var s := a.backingTypes[k];
      var f := Collection(s, c)[j];
      [s.typename, CategoryName(f.category), f.name] == path[i..i + 3]
    ensures var loc := [Step(k, c, j)];
      Locates(a, loc) && Unambiguous(a, loc) && ComputePath(a, loc) == path[i..]
  {
  }

  lemma SoundCons(a: Aggregate, path: seq<string>, i: nat, k: nat, c: Category, j: nat, rest: seq<Step>)
    requires i + 3 < |path| && k < |a.backingTypes| && j < |Collection(a.backingTypes[k], c)|
    requires FirstBacking(a.backingTypes, path[i]) == Some(k)
    requires FirstField(Collection(a.backingTypes[k], c), path[i + 2]) == Some(j)
    requires var s := a.backingTypes[k];
      var f := Collection(s, c)[j];
      [s.typename, CategoryName(f.category), f.name] == path[i..i + 3] &&
      f.childType.Some? && Locates(f.childType.value, rest) && Unambiguous(f.childType.value, rest) &&
      ComputePath(f.childType.value, rest) == path[i + 3..]
    ensures var loc := [Step(k, c, j)] + rest;
      Locates(a, loc) && Unambiguous(a, loc) && ComputePath(a, loc) == path[i..]
  {
    var loc := [Step(k, c, j)] + rest;
    assert loc[0] == Step(k, c, j) && loc[1..] == rest;
    assert path[i..] == path[i..i + 3] + path[i + 3..];
  }

  /** `_computePath` followed back: the path of a field that is the first of its name at
      every level leads to that field. */
  lemma {:induction false} LocateComputePath(a: Aggregate, loc: seq<Step>, p: seq<string>)
    requires AggregateWellFormed(a) && Locates(a, loc) && Unambiguous(a, loc)
    ensures Locate(a, p + ComputePath(a, loc), |p|) == Some(loc)
    decreases a
  {
    var st := loc[0];
    var path := p + ComputePath(a, loc);
    ComputedLevel(a, loc, p);
    if |loc| > 1 {
      LocateComputePath(Head(a, loc).childType.value, loc[1..], p + OwnSegments(a, loc));
    }
    LocateLevelFound(a, path, |p|, st, loc[1..]);
    assert loc == [st] + loc[1..];
  }

  /** One level of `Locate` that finds its three first matches and then the rest below. */
  lemma LocateLevelFound(a: Aggregate, path: seq<string>, i: nat, st: Step, rest: seq<Step>)
    requires i + 3 <= |path|
    requires FirstBacking(a.backingTypes, path[i]) == Some(st.backing) && CategoryNamed(path[i + 1]) == Some(st.category)
    requires FirstField(Collection(a.backingTypes[st.backing], st.category), path[i + 2]) == Some(st.index)
    requires i + 3 == |path| <==> rest == []
    requires var f := Collection(a.backingTypes[st.backing], st.category)[st.index];
      rest != [] ==> (f.childType.Some? && Locate(f.childType.value, path, i + 3) == Some(rest))
    ensures Locate(a, path, i) == Some([st] + rest)
  {
    LocateLevel(a, path, i, st.backing, st.category, st.index);
    if rest == [] {
      assert [st] + rest == [Step(st.backing, st.category, st.index)];
    }
  }

  /** The three segments a computed path spells for the first step, and what follows them. */
  lemma ComputedLevel(a: Aggregate, loc: seq<Step>, p: seq<string>)
    requires AggregateWellFormed(a) && Locates(a, loc) && Unambiguous(a, loc)
    ensures var path := p + ComputePath(a, loc);
      var own := OwnSegments(a, loc);
      var st := loc[0];
      var s := a.backingTypes[st.backing];
      var f := Head(a, loc);
      |p| + 3 <= |path| && st.backing < |a.backingTypes| &&
      FirstBacking(a.backingTypes, path[|p|]) == Some(st.backing) && CategoryNamed(path[|p| + 1]) == Some(st.category) &&
      FirstField(Collection(s, st.category), path[|p| + 2]) == Some(st.index) &&
      f == Collection(s, st.category)[st.index] &&
      (|loc| == 1 <==> |path| == |p| + 3) &&
      (|loc| > 1 ==>
         (f.childType.Some? && AggregateWellFormed(f.childType.value) &&
          Locates(f.childType.value, loc[1..]) && Unambiguous(f.childType.value, loc[1..]) &&
          path == (p + own) + ComputePath(f.childType.value, loc[1..])))
  {
    var st := loc[0];
    var s := a.backingTypes[st.backing];
    var f := Head(a, loc);
    FormedBelow(s, st.category, st.index);
    var own := OwnSegments(a, loc);
    var path := p + ComputePath(a, loc);
    ComputedSplit(a, loc, p);
    assert path[|p|..|p| + 3] == own == [s.typename, CategoryName(f.category), f.name];
  }

  /** A computed path is the first level's segments followed by the path below. */
  lemma ComputedSplit(a: Aggregate, loc: seq<Step>, p: seq<string>)
    requires Locates(a, loc)
    ensures |loc| == 1 ==> p + ComputePath(a, loc) == p + OwnSegments(a, loc)
    ensures |loc| > 1 ==>
      (Head(a, loc).childType.Some? && Locates(Head(a, loc).childType.value, loc[1..]) &&
       p + ComputePath(a, loc) == (p + OwnSegments(a, loc)) + ComputePath(Head(a, loc).childType.value, loc[1..]))
  {
  }

  /** One level of `Locate` once its three first matches are known. */
  lemma LocateLevel(a: Aggregate, path: seq<string>, i: nat, k: nat, c: Category, j: nat)
    requires i + 3 <= |path|
    requires FirstBacking(a.backingTypes, path[i]) == Some(k) && CategoryNamed(path[i + 1]) == Some(c)
    requires FirstField(Collection(a.backingTypes[k], c), path[i + 2]) == Some(j)
    ensures var f := Collection(a.backingTypes[k], c)[j];
      Locate(a, path, i) ==
        if i + 3 == |path| then Some([Step(k, c, j)])
        else if f.childType.None? then None
        else match Locate(f.childType.value, path, i + 3)
          case None => None
          case Some(rest) => Some([Step(k, c, j)] + rest)
  {
  }

  /** When the types along the path are prepared, a path that leads nowhere changes nothing and notifies nobody. */
  lemma {:induction false} EnableMissing(cfg: Config, be: Backend, prefix: seq<string>, a: Aggregate, path: seq<string>, i: nat)
    requires i <= |path| && Locate(a, path, i).None?
    requires ReadyAlong(a, path, i)
    ensures EnableInAggregate(cfg, be, prefix, a, path, i) == Effect(a, [])
    decreases |path| - i
  {
    if i < |path| {
      var bts := a.backingTypes;
      match FirstBacking(bts, path[i])
      case None =>
      case Some(k) =>
        var s := bts[k];
        var d := EnableInSingle(cfg, be, prefix, s, path, i + 1);
        assert d.value == s && d.log == [] by {
          if i + 1 < |path| && CategoryNamed(path[i + 1]).Some? && i + 2 < |path| {
            var c := CategoryNamed(path[i + 1]).value;
            var fs := Collection(s, c);
            match FirstField(fs, path[i + 2])
            case None =>
            case Some(j) =>
              var f := fs[j];
              assert i + 3 < |path|;
              var df := EnableInField(cfg, be, FieldPath(prefix, s, f), f, path, i + 3);
              assert df == Effect(f, []) by {
                if f.childType.Some? {
                  EnableMissing(cfg, be, FieldPath(prefix, s, f), f.childType.value, path, i + 3);
                }
              }
              assert fs[j := f] == fs;
              WithCollectionSame(s, c);
          }
        }
        assert bts[k := s] == bts;
    }
  }

  /** When the types along the path are prepared, a path that leads to a field enables that field, under the path
      `_computePath` gives it, and changes nothing else. */
  lemma {:induction false} EnableFound(cfg: Config, be: Backend, prefix: seq<string>, a: Aggregate, path: seq<string>, i: nat)
    requires i <= |path| && Locate(a, path, i).Some?
    requires ReadyAlong(a, path, i)
    ensures var loc := Locate(a, path, i).value;
      Locates(a, loc) &&
      var e := SetIsEnabled(cfg, prefix + ComputePath(a, loc), FieldAt(a, loc), true);
      EnableInAggregate(cfg, be, prefix, a, path, i) == Effect(WithFieldAt(a, loc, e.value), e.log)
    decreases |path| - i
  {
    var loc := Locate(a, path, i).value;
    LocateLocates(a, path, i);
    EnableOneLevel(cfg, be, prefix, a, path, i);
    var st := loc[0];
    var s := a.backingTypes[st.backing];
    var f := Collection(s, st.category)[st.index];
    var trail := FieldPath(prefix, s, f);
    var own := [s.typename, CategoryName(f.category), f.name];
    assert Head(a, loc) == f;
    var df := EnableInField(cfg, be, trail, f, path, i + 3);
    var e := SetIsEnabled(cfg, prefix + ComputePath(a, loc), FieldAt(a, loc), true);
    if i + 3 == |path| {
      assert df == e;
    } else {
      var child := f.childType.value;
      var rest := loc[1..];
      EnableFound(cfg, be, trail, child, path, i + 3);
      assert ComputePath(a, loc) == own + ComputePath(child, rest);
      AppendAssoc(prefix, own, ComputePath(child, rest));
      assert df == Effect(f.(childType := Some(WithFieldAt(child, rest, e.value))), e.log);
    }
  }

  lemma {:induction false} LocateLocates(a: Aggregate, path: seq<string>, i: nat)
    requires i <= |path| && Locate(a, path, i).Some?
    ensures Locates(a, Locate(a, path, i).value)
    decreases |path| - i
  {
    var loc := Locate(a, path, i).value;
    var k, c, j := LocateFirst(a, path, i);
    if i + 3 < |path| {
      var child := Collection(a.backingTypes[k], c)[j].childType.value;
      LocateLocates(child, path, i + 3);
      assert loc[0] == Step(k, c, j) && loc[1..] == Locate(child, path, i + 3).value;
    }
  }

  /** One level of a found path whose types are prepared: the preparation does nothing and the
      path goes on in the located field. */
  lemma EnableOneLevel(cfg: Config, be: Backend, prefix: seq<string>, a: Aggregate, path: seq<string>, i: nat)
    requires i <= |path| && Locate(a, path, i).Some?
    requires ReadyAlong(a, path, i)
    requires Locates(a, Locate(a, path, i).value)
    ensures var loc := Locate(a, path, i).value;
      var st := loc[0];
      var s := a.backingTypes[st.backing];
      var fs := Collection(s, st.category);
      var f := fs[st.index];
      (i + 3 == |path| <==> |loc| == 1) &&
      (|loc| > 1 ==> f.childType.Some? && Locate(f.childType.value, path, i + 3) == Some(loc[1..])) &&
      var df := EnableInField(cfg, be, FieldPath(prefix, s, f), f, path, i + 3);
      EnableInAggregate(cfg, be, prefix, a, path, i) ==
        Effect(a.(backingTypes := a.backingTypes[st.backing := WithCollection(s, st.category, fs[st.index := df.value])]), df.log)
  {
    var loc := Locate(a, path, i).value;
    var k := FirstBacking(a.backingTypes, path[i]).value;
    var c := CategoryNamed(path[i + 1]).value;
    var s := a.backingTypes[k];
    var fs := Collection(s, c);
    var j := FirstField(fs, path[i + 2]).value;
    assert loc[0] == Step(k, c, j);
    if i + 3 < |path| {
      var rest := Locate(fs[j].childType.value, path, i + 3).value;
      assert loc == [Step(k, c, j)] + rest;
      assert loc[1..] == rest;
    }
    var df := EnableInField(cfg, be, FieldPath(prefix, s, fs[j]), fs[j], path, i + 3);
    assert EnableInSingle(cfg, be, prefix, s, path, i + 1) == Effect(WithCollection(s, c, fs[j := df.value]), df.log);
    assert [] + df.log == df.log;
  }

  /** `enableField(_computePath(field))`, when every type on the way to the field is
      prepared, enables exactly that field, when it is the first of its name at every level. */
  lemma EnableComputedPath(cfg: Config, be: Backend, a: Aggregate, loc: seq<Step>)
    requires AggregateWellFormed(a)
    requires Locates(a, loc) && Unambiguous(a, loc) && ReadyTo(a, loc)
    ensures var e := SetIsEnabled(cfg, ComputePath(a, loc), FieldAt(a, loc), true);
      EnableInAggregate(cfg, be, [], a, ComputePath(a, loc), 0) == Effect(WithFieldAt(a, loc, e.value), e.log)
  {
    LocateComputePath(a, loc, []);
    assert [] + ComputePath(a, loc) == ComputePath(a, loc);
    ReadyToAlong(a, ComputePath(a, loc), 0, loc);
    EnableFound(cfg, be, [], a, ComputePath(a, loc), 0);
  }

  /** One level of `ReadyAlong` once the walk's three first matches are known. */
  lemma ReadyAlongLevel(a: Aggregate, path: seq<string>, i: nat, k: nat, c: Category, j: nat)
    requires i + 3 <= |path|
    requires FirstBacking(a.backingTypes, path[i]) == Some(k) && CategoryNamed(path[i + 1]) == Some(c)
    requires FirstField(Collection(a.backingTypes[k], c), path[i + 2]) == Some(j)
    ensures var f := Collection(a.backingTypes[k], c)[j];
      ReadyAlong(a, path, i) ==
        ((a.prepared || |a.backingTypes| == 0) &&
         (i + 3 < |path| && f.childType.Some? ==> ReadyAlong(f.childType.value, path, i + 3)))
  {
  }

  /** On a path that leads to a field, the types the walk passes through are exactly the
      types on the way to that field. */
  lemma {:induction false} ReadyToAlong(a: Aggregate, path: seq<string>, i: nat, loc: seq<Step>)
    requires i <= |path| && Locate(a, path, i) == Some(loc) && Locates(a, loc)
    ensures ReadyTo(a, loc) == ReadyAlong(a, path, i)
    decreases |path| - i
  {
    var k, c, j := LocateFirst(a, path, i);
    var f := Collection(a.backingTypes[k], c)[j];
    if i + 3 == |path| {
      ReadyLevel(a, path, i, k, c, j, loc);
    } else {
      var rest := Locate(f.childType.value, path, i + 3).value;
      LocateLocates(f.childType.value, path, i + 3);
      assert loc[1..] == rest;
      ReadyToAlong(f.childType.value, path, i + 3, rest);
      ReadyLevel(a, path, i, k, c, j, loc);
    }
  }

  /** One level of `ReadyToAlong`: both predicates ask the same of this type, and the
      same of the rest below. */
  lemma ReadyLevel(a: Aggregate, path: seq<string>, i: nat, k: nat, c: Category, j: nat, loc: seq<Step>)
    requires i + 3 <= |path|
    requires FirstBacking(a.backingTypes, path[i]) == Some(k) && CategoryNamed(path[i + 1]) == Some(c)
    requires FirstField(Collection(a.backingTypes[k], c), path[i + 2]) == Some(j)
    requires Locates(a, loc) && loc[0] == Step(k, c, j) && (|loc| == 1 <==> i + 3 == |path|)
    requires var f := Collection(a.backingTypes[k], c)[j];
      |loc| > 1 ==>
        (f.childType.Some? && Locates(f.childType.value, loc[1..]) &&
         ReadyTo(f.childType.value, loc[1..]) == ReadyAlong(f.childType.value, path, i + 3))
    ensures ReadyTo(a, loc) == ReadyAlong(a, path, i)
  {
    ReadyAlongLevel(a, path, i, k, c, j);
    assert Head(a, loc) == Collection(a.backingTypes[k], c)[j];
  }

  /** The path `_computePath` gives a field is the path its notifications carry: the
      field stands under it in the line of its root type. */
  lemma {:induction false} PathInLine(prefix: seq<string>, a: Aggregate, loc: seq<Step>)
    requires Locates(a, loc)
    ensures Shown(FieldAt(a, loc), prefix + ComputePath(a, loc)) in AggregateLine(prefix, a)
    decreases a
  {
    var st := loc[0];
    var s := a.backingTypes[st.backing];
    var fs := Collection(s, st.category);
    var f := fs[st.index];
    var trail := FieldPath(prefix, s, f);
    var x := Shown(FieldAt(a, loc), prefix + ComputePath(a, loc));
    assert Head(a, loc) == f;
    if |loc| == 1 {
      assert x == Shown(f, trail);
    } else {
      PathInLine(trail, f.childType.value, loc[1..]);
      assert prefix + ComputePath(a, loc) == trail + ComputePath(f.childType.value, loc[1..]);
    }
    assert x in FieldLine(trail, f);
    InFieldsLine(prefix, s, fs, st.index, x);
    InSingleLine(prefix, s, st.category, x);
    InSinglesLine(prefix, a.backingTypes, st.backing, x);
  }

  lemma {:induction false} InFieldsLine(prefix: seq<string>, s: Single, fs: seq<Field>, j: nat, x: Shown)
    requires j < |fs| && x in FieldLine(FieldPath(prefix, s, fs[j]), fs[j])
    ensures x in FieldsLine(prefix, s, fs)
    decreases j
  {
    if j > 0 {
      InFieldsLine(prefix, s, fs[1..], j - 1, x);
    }
  }

  lemma InSingleLine(prefix: seq<string>, s: Single, c: Category, x: Shown)
    requires x in FieldsLine(prefix, s, Collection(s, c))
    ensures x in SingleLine(prefix, s)
  {
  }

  lemma {:induction false} InSinglesLine(prefix: seq<string>, bts: seq<Single>, k: nat, x: Shown)
    requires k < |bts| && x in SingleLine(prefix, bts[k])
    ensures x in SinglesLine(prefix, bts)
    decreases k
  {
    if k > 0 {
      InSinglesLine(prefix, bts[1..], k - 1, x);
    }
  }

  /** `_enableRemainingPath` with its two search loops. */
  method EnableRemainingPath(cfg: Config, be: Backend, prefix: seq<string>, a: Aggregate, path: seq<string>, i: nat) returns (r: Effect<Aggregate>)
    requires i <= |path|
    ensures r == EnableInAggregate(cfg, be, prefix, a, path, i)
    decreases |path| - i, 0
  {
    if i == |path| {
      return Effect(a, []);
    }
    var e := PrepareAggregate(cfg, be, prefix, a);
    var bts := e.value.backingTypes;
    var k := FindFirst(bts, TypenameOf, path[i]);
    if k.None? {
      return e;
    }
    var d := EnableRemainingInSingle(cfg, be, prefix, bts[k.value], path, i + 1);
    r := Effect(e.value.(backingTypes := bts[k.value := d.value]), e.log + d.log);
  }

  method EnableRemainingInSingle(cfg: Config, be: Backend, prefix: seq<string>, s: Single, path: seq<string>, i: nat) returns (r: Effect<Single>)
    requires i <= |path|
    ensures r == EnableInSingle(cfg, be, prefix, s, path, i)
    decreases |path| - i, 0
  {
    if i == |path| {
      return Effect(s, []);
    }
    var c := CategoryNamed(path[i]);
    if c.None? || i + 1 == |path| {
      return Effect(s, []);
    }
    var fs := Collection(s, c.value);
    var j := FindFirst(fs, NameOf, path[i + 1]);
    if j.None? {
      return Effect(s, []);
    }
    var d := EnableRemainingInField(cfg, be, FieldPath(prefix, s, fs[j.value]), fs[j.value], path, i + 2);
    r := Effect(WithCollection(s, c.value, fs[j.value := d.value]), d.log);
  }

  method EnableRemainingInField(cfg: Config, be: Backend, trail: seq<string>, f: Field, path: seq<string>, i: nat) returns (r: Effect<Field>)
    requires i <= |path|
    ensures r == EnableInField(cfg, be, trail, f, path, i)
    decreases |path| - i, 1
  {
    if i == |path| {
      return SetIsEnabled(cfg, trail, f, true);
    }
    if f.childType.None? {
      return Effect(f, []);
    }
    var d := EnableRemainingPath(cfg, be, trail, f.childType.value, path, i);
    r := Effect(f.(childType := Some(d.value)), d.log);
  }
}
