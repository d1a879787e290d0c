/** `findFieldNameCollisions`: among the entries of a rendered field list that belong to the
    aggregate type being rendered (not to a type below it), the names held by more than one
    entry. A colliding name is shown qualified by its backing type's name.

    An entry belongs to the aggregate type being rendered when its path, relative to that
    type, has exactly three segments; `OwnEntries` shows this is the entry of one of the
    type's own fields. */
module Collisions {
  import opened Wrappers
  import opened TypeTree
  import opened Selection

  predicate IsOwn(x: Shown) {
    |x.trail| == 3
  }

  /** How many own entries carry the name. */
  function OwnCount(xs: seq<Shown>, n: string): nat {
    if xs == [] then 0
    else OwnCount(xs[..|xs| - 1], n) + (if IsOwn(xs[|xs| - 1]) && xs[|xs| - 1].field.name == n then 1 else 0)
  }

  /** The names of the own entries. */
  function OwnNames(xs: seq<Shown>): (r: set<string>)
    ensures forall n :: n in r <==> OwnCount(xs, n) >= 1
  {
    if xs == [] then {}
    else
      var x := xs[|xs| - 1];
      OwnNames(xs[..|xs| - 1]) + (if IsOwn(x) then {x.field.name} else {})
  }

  lemma {:induction false} OwnCountAppend(xs: seq<Shown>, ys: seq<Shown>, n: string)
    ensures OwnCount(xs + ys, n) == OwnCount(xs, n) + OwnCount(ys, n)
    decreases |ys|
  {
    if ys == [] {
      assert xs + ys == xs;
    } else {
      var init := ys[..|ys| - 1];
      assert (xs + ys)[..|xs + ys| - 1] == xs + init;
      OwnCountAppend(xs, init, n);
    }
  }

  lemma OwnCountSnoc(xs: seq<Shown>, i: int, n: string)
    requires 0 <= i < |xs|
    ensures OwnCount(xs[..i + 1], n) == OwnCount(xs[..i], n) + (if IsOwn(xs[i]) && xs[i].field.name == n then 1 else 0)
  {
    assert xs[..i + 1][..i] == xs[..i];
  }

  /** The names held by at least two own entries. */
  function NameCollisions(xs: seq<Shown>): set<string> {
    set n | n in OwnNames(xs) && OwnCount(xs, n) >= 2
  }

  /** `findFieldNameCollisions` with a lookup that sees only the names it has recorded. */
  method FindFieldNameCollisions(fields: seq<Shown>) returns (collisions: set<string>)
    ensures collisions == NameCollisions(fields)
    ensures forall n :: n in collisions <==> OwnCount(fields, n) >= 2
  {
    var names: set<string> := {};
    collisions := {};
    var i := 0;
    while i < |fields|
      invariant 0 <= i <= |fields|
      invariant forall n :: n in names <==> OwnCount(fields[..i], n) >= 1
      invariant forall n :: n in collisions <==> OwnCount(fields[..i], n) >= 2
    {
      var f := fields[i];
      if IsOwn(f) {
        if f.field.name in names {
          collisions := collisions + {f.field.name};
        } else {
          names := names + {f.field.name};
        }
      }
      forall n
        ensures OwnCount(fields[..i + 1], n) == OwnCount(fields[..i], n) + (if IsOwn(f) && f.field.name == n then 1 else 0)
      {
        OwnCountSnoc(fields, i, n);
      }
      i := i + 1;
    }
    assert fields[..i] == fields;
  }

  /** The property names every plain JavaScript object inherits, which `name in object` finds
      in an object that was never given them. */
  const InheritedNames: set<string> := {
    "constructor", "__defineGetter__", "__defineSetter__", "hasOwnProperty",
    "__lookupGetter__", "__lookupSetter__", "isPrototypeOf", "propertyIsEnumerable",
    "toString", "valueOf", "__proto__", "toLocaleString"}

  /** What `findFieldNameCollisions` records as written: its `in` test on a plain object
      also finds the inherited names, so the first own entry with such a name is already
      taken for a second one. */
  function NameCollisionsAsWritten(xs: seq<Shown>): set<string> {
    set n | n in OwnNames(xs) && (OwnCount(xs, n) >= 2 || n in InheritedNames)
  }

  method FindFieldNameCollisionsAsWritten(fields: seq<Shown>) returns (collisions: set<string>)
    ensures collisions == NameCollisionsAsWritten(fields)
  {
    var names: set<string> := {};
    collisions := {};
    var i := 0;
    while i < |fields|
      invariant 0 <= i <= |fields|
      invariant forall n :: n in names <==> OwnCount(fields[..i], n) >= 1 && n !in InheritedNames
      invariant forall n :: n in collisions <==> OwnCount(fields[..i], n) >= 1 && (OwnCount(fields[..i], n) >= 2 || n in InheritedNames)
    {
      var f := fields[i];
      if IsOwn(f) {
        if f.field.name in names || f.field.name in InheritedNames {
          collisions := collisions + {f.field.name};
        } else {
          names := names + {f.field.name};
        }
      }
      forall n
        ensures OwnCount(fields[..i + 1], n) == OwnCount(fields[..i], n) + (if IsOwn(f) && f.field.name == n then 1 else 0)
      {
        OwnCountSnoc(fields, i, n);
      }
      i := i + 1;
    }
    assert fields[..i] == fields;
  }

  /** A list with a single field named `constructor` has no collision, yet the name is recorded as one. */
  lemma ConstructorCollidesAsWritten()
    ensures var xs := [Shown(Field("constructor", Native, false, None), ["T", "fields", "constructor"])];
      OwnCount(xs, "constructor") == 1 &&
      "constructor" in NameCollisionsAsWritten(xs) && "constructor" !in NameCollisions(xs)
  {
    var xs := [Shown(Field("constructor", Native, false, None), ["T", "fields", "constructor"])];
    assert xs[..0] == [];
    assert OwnCount(xs, "constructor") == 1;
  }

  /** The extended list `_renderFieldList` checks is the three non-native lists one after the
      other: a name collides there when its own entries in the three lists add up to two. */
  lemma ExtendedCollisions(ext: seq<Shown>, arr: seq<Shown>, desc: seq<Shown>, n: string)
    ensures n in NameCollisions(ext + arr + desc) <==> OwnCount(ext, n) + OwnCount(arr, n) + OwnCount(desc, n) >= 2
  {
    OwnCountAppend(ext, arr, n);
    OwnCountAppend(ext + arr, desc, n);
  }

  /** Paths relative to a type's own line: every entry has at least three segments, and one
      with exactly three is one of the listed fields, under its own path. */
  lemma {:induction false} OwnEntries(prefix: seq<string>, s: Single, fs: seq<Field>)
    ensures forall x | x in FieldsLine(prefix, s, fs) ::
      |x.trail| >= |prefix| + 3 &&
      (|x.trail| == |prefix| + 3 ==> x.field in fs && x.trail == FieldPath(prefix, s, x.field))
    decreases fs, 1
  {
    if fs != [] {
      var path := FieldPath(prefix, s, fs[0]);
      if fs[0].childType.Some? {
        DeeperEntries(path, fs[0].childType.value);
      }
      OwnEntries(prefix, s, fs[1..]);
    }
  }

  /** Every entry below a field's child type is deeper than the field. */
  lemma {:induction false} DeeperEntries(prefix: seq<string>, a: Aggregate)
    ensures forall x | x in AggregateLine(prefix, a) :: |x.trail| >= |prefix| + 3
    decreases a, 1
  {
    DeeperSingles(prefix, a.backingTypes);
  }

  lemma {:induction false} DeeperSingles(prefix: seq<string>, bts: seq<Single>)
    ensures forall x | x in SinglesLine(prefix, bts) :: |x.trail| >= |prefix| + 3
    decreases bts, 1
  {
    if bts != [] {
      var s := bts[0];
      OwnEntries(prefix, s, s.fields);
      OwnEntries(prefix, s, s.extendedFields);
      OwnEntries(prefix, s, s.arrayFields);
      OwnEntries(prefix, s, s.descriptions);
      DeeperSingles(prefix, bts[1..]);
    }
  }

  /** In a list selected for rendering an aggregate type, an own entry is a field of the
      selected collection. */
  lemma SelectedOwn(s: Single, fs: seq<Field>)
    ensures forall x | x in Selected([], s, fs) :: |x.trail| >= 3 && (IsOwn(x) ==> x.field in fs)
  {
    OwnEntries([], s, fs);
  }
}
