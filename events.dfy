/** Extension fields and the handler that keeps a single type's extension collections in
    step with the extension registry: `monitorTypeExtensions`, its `add`, `remove`,
    `rename` and `typechange` operations. */
module Extensions {
  import opened Wrappers
  import opened TypeTree
  import opened Lifecycle

  /** The type name an extension declares for its value: none (or an empty name), a fixed
      name, or a function of the owning type's name, whose result may be null (None). */
  datatype TypeName = NoTypeName | FixedTypeName(name: string) | DerivedTypeName(derive: string -> Option<string>)

  /** An extension as the registry describes it. `createdHere` says that the extension was
      created from the aggregate type that owns the single type receiving it. */
  datatype Extension = Extension(typeName: TypeName, isPrimary: bool, createdHere: bool)

  /** A registry operation on one extension of the monitored type, in one category. */
  datatype Event =
    | Add(name: string, extension: Extension)
    | Remove(name: string)
    | Rename(name: string, newName: string)
    | TypeChange(name: string, newTypeName: Option<string>)

  /** The child type name a new extension field is given: an empty fixed name counts as no
      name, and a function is applied to the owning type's name. */
  function ChildTypeName(t: TypeName, ownerTypename: string): (r: Option<string>)
    ensures t.NoTypeName? ==> r.None?
    ensures t.FixedTypeName? ==> (r.Some? <==> t.name != "") && (r.Some? ==> r.value == t.name)
  {
    match t
    case NoTypeName => None
    case FixedTypeName(n) => if n == "" then None else Some(n)
    case DerivedTypeName(d) => d(ownerTypename)
  }

  /** The field `addTypeExtensionField` creates: disabled, with a child type in the owning module. */
  function ExtensionField(s: Single, c: Category, name: string, e: Extension): Field {
    Field(name, c, false, NewChild(s.moduleName, ChildTypeName(e.typeName, s.typename)))
  }

  /** `addTypeExtensionField`: a primary extension is ignored; any other is appended to the
      collection, and enabled when it was created from this aggregate type. */
  function AddExtensionField(cfg: Config, prefix: seq<string>, s: Single, c: Category, name: string, e: Extension): (r: Effect<Single>)
    ensures e.isPrimary ==> r == Effect(s, [])
    ensures !e.isPrimary ==>
      var f := ExtensionField(s, c, name, e).(isEnabled := cfg.allowFieldSelection && e.createdHere);
      r.value == WithCollection(s, c, Collection(s, c) + [f]) &&
      r.log == if f.isEnabled then [Notification(FieldPath(prefix, s, f), true)] else []
  {
    if e.isPrimary then Effect(s, [])
    else
      var f := ExtensionField(s, c, name, e);
      var en := if e.createdHere then SetIsEnabled(cfg, FieldPath(prefix, s, f), f, true) else Effect(f, []);
      Effect(WithCollection(s, c, Collection(s, c) + [en.value]), en.log)
  }

  /** `getAllExtensions(...).forEach(addTypeExtensionField)`: the registered extensions, in order. */
  function AddExtensionFields(cfg: Config, prefix: seq<string>, s: Single, c: Category, entries: seq<(string, Extension)>): (r: Effect<Single>)
    ensures forall d :: d != c ==> Collection(r.value, d) == Collection(s, d)
    ensures r.value.typename == s.typename && r.value.moduleName == s.moduleName
    ensures r.value.isExpanded == s.isExpanded && r.value.prepared == s.prepared
    decreases |entries|
  {
    if entries == [] then Effect(s, [])
    else
      var e1 := AddExtensionField(cfg, prefix, s, c, entries[0].0, entries[0].1);
      var e2 := AddExtensionFields(cfg, prefix, e1.value, c, entries[1..]);
      Effect(e2.value, e1.log + e2.log)
  }

  /** The names of the extensions that are not primary: those that become fields. */
  function Secondary(entries: seq<(string, Extension)>): seq<string> {
    if entries == [] then []
    else (if entries[0].1.isPrimary then [] else [entries[0].0]) + Secondary(entries[1..])
  }

  function Names(fs: seq<Field>): (r: seq<string>)
    ensures |r| == |fs| && forall k :: 0 <= k < |fs| ==> r[k] == fs[k].name
  {
    if fs == [] then [] else [fs[0].name] + Names(fs[1..])
  }

  lemma NamesAppend(xs: seq<Field>, ys: seq<Field>)
    ensures Names(xs + ys) == Names(xs) + Names(ys)
  {
    assert Names(xs + ys) == Names(xs) + Names(ys);
  }

  /** One `addTypeExtensionField` appends at most one field, and only to its own collection. */
  lemma AddExtensionFieldAppends(cfg: Config, prefix: seq<string>, s: Single, c: Category, name: string, e: Extension)
    ensures Collection(AddExtensionField(cfg, prefix, s, c, name, e).value, c) ==
      Collection(s, c) + (if e.isPrimary then [] else [ExtensionField(s, c, name, e).(isEnabled := cfg.allowFieldSelection && e.createdHere)])
  {
  }

  /** The fields seeding adds: one per secondary extension, in registry order. */
  function SeededFields(cfg: Config, s: Single, c: Category, entries: seq<(string, Extension)>): (r: seq<Field>)
    ensures Names(r) == Secondary(entries)
  {
    if entries == [] then []
    else
      (if entries[0].1.isPrimary then []
       else [ExtensionField(s, c, entries[0].0, entries[0].1).(isEnabled := cfg.allowFieldSelection && entries[0].1.createdHere)])
      + SeededFields(cfg, s, c, entries[1..])
  }

  /** Seeding a collection from the registry appends the seeded fields and leaves the fields
      already there in place. */
  lemma {:induction false} AddExtensionFieldsAppends(cfg: Config, prefix: seq<string>, s: Single, c: Category, entries: seq<(string, Extension)>)
    ensures Collection(AddExtensionFields(cfg, prefix, s, c, entries).value, c) == Collection(s, c) + SeededFields(cfg, s, c, entries)
    decreases |entries|
  {
    if entries != [] {
      var name, e := entries[0].0, entries[0].1;
      var t := AddExtensionField(cfg, prefix, s, c, name, e).value;
      AddExtensionFieldAppends(cfg, prefix, s, c, name, e);
      AddExtensionFieldsAppends(cfg, prefix, t, c, entries[1..]);
      SeededFieldsOwner(cfg, t, s, c, entries[1..]);
      AddExtensionFieldsUnfold(cfg, prefix, s, c, entries);
      SeededFieldsUnfold(cfg, s, c, entries);
      var d := if e.isPrimary then [] else [ExtensionField(s, c, name, e).(isEnabled := cfg.allowFieldSelection && e.createdHere)];
      AppendAssoc(Collection(s, c), d, SeededFields(cfg, s, c, entries[1..]));
    }
  }

  lemma AddExtensionFieldsUnfold(cfg: Config, prefix: seq<string>, s: Single, c: Category, entries: seq<(string, Extension)>)
    requires entries != []
    ensures var t := AddExtensionField(cfg, prefix, s, c, entries[0].0, entries[0].1).value;
      t.moduleName == s.moduleName && t.typename == s.typename &&
      AddExtensionFields(cfg, prefix, s, c, entries).value == AddExtensionFields(cfg, prefix, t, c, entries[1..]).value
  {
  }

  lemma SeededFieldsUnfold(cfg: Config, s: Single, c: Category, entries: seq<(string, Extension)>)
    requires entries != []
    ensures SeededFields(cfg, s, c, entries) ==
      (if entries[0].1.isPrimary then [] else [ExtensionField(s, c, entries[0].0, entries[0].1).(isEnabled := cfg.allowFieldSelection && entries[0].1.createdHere)])
      + SeededFields(cfg, s, c, entries[1..])
  {
  }

  /** The seeded fields depend on the owning type only through its module and name. */
  lemma {:induction false} SeededFieldsOwner(cfg: Config, s: Single, t: Single, c: Category, entries: seq<(string, Extension)>)
    requires s.moduleName == t.moduleName && s.typename == t.typename
    ensures SeededFields(cfg, s, c, entries) == SeededFields(cfg, t, c, entries)
    decreases |entries|
  {
    if entries != [] {
      SeededFieldsOwner(cfg, s, t, c, entries[1..]);
    }
  }

  /** The collection without the fields of that name, in the same order. */
  function Without(fs: seq<Field>, name: string): (r: seq<Field>)
    ensures forall f :: f in r <==> f in fs && f.name != name
    ensures |r| <= |fs|
  {
    if fs == [] then []
    else (if fs[0].name == name then [] else [fs[0]]) + Without(fs[1..], name)
  }

  /** The fields of that name, in order. */
  function Named(fs: seq<Field>, name: string): (r: seq<Field>)
    ensures forall f :: f in r <==> f in fs && f.name == name
  {
    if fs == [] then []
    else (if fs[0].name == name then [fs[0]] else []) + Named(fs[1..], name)
  }

  /** The `remove` handler: `filter`, disabling each dropped field completely as it goes. */
  function RemoveNamed(cfg: Config, prefix: seq<string>, s: Single, fs: seq<Field>, name: string): (r: Effect<seq<Field>>)
    ensures |r.value| <= |fs|
    ensures forall f | f in r.value :: f in fs && f.name != name
    ensures forall n | n in r.log :: !n.isEnabled
    ensures !cfg.allowFieldSelection ==> r.log == []
    decreases fs
  {
    if fs == [] then Effect([], [])
    else
      var rest := RemoveNamed(cfg, prefix, s, fs[1..], name);
      if fs[0].name == name then
        Effect(rest.value, DisableField(cfg, FieldPath(prefix, s, fs[0]), fs[0]).log + rest.log)
      else Effect([fs[0]] + rest.value, rest.log)
  }

  /** `remove` keeps every other field in place, and reports every enabled field of the
      dropped subtrees as disabled. */
  lemma {:induction false} RemoveNamedMeaning(cfg: Config, prefix: seq<string>, s: Single, fs: seq<Field>, name: string)
    ensures RemoveNamed(cfg, prefix, s, fs, name).value == Without(fs, name)
    ensures RemoveNamed(cfg, prefix, s, fs, name).log ==
      if cfg.allowFieldSelection then Disables(EnabledOnly(FieldsLine(prefix, s, Named(fs, name)))) else []
    decreases fs
  {
    if fs != [] {
      RemoveNamedMeaning(cfg, prefix, s, fs[1..], name);
      if fs[0].name == name {
        var p := FieldPath(prefix, s, fs[0]);
        DisableFieldNotifies(cfg, p, fs[0]);
        assert Named(fs, name) == [fs[0]] + Named(fs[1..], name);
        assert FieldsLine(prefix, s, [fs[0]] + Named(fs[1..], name)) == FieldLine(p, fs[0]) + FieldsLine(prefix, s, Named(fs[1..], name));
        EnabledOnlyAppend(FieldLine(p, fs[0]), FieldsLine(prefix, s, Named(fs[1..], name)));
        DisablesAppend(EnabledOnly(FieldLine(p, fs[0])), EnabledOnly(FieldsLine(prefix, s, Named(fs[1..], name))));
      } else {
        assert Named(fs, name) == Named(fs[1..], name);
      }
    }
  }

  /** The `rename` handler: each field of that name is disabled, renamed and re-enabled
      to its former state. */
  function RenameNamed(cfg: Config, prefix: seq<string>, s: Single, fs: seq<Field>, name: string, newName: string): (r: Effect<seq<Field>>)
    ensures |r.value| == |fs|
    ensures forall k :: 0 <= k < |fs| ==> r.value[k] == fs[k].(name := r.value[k].name)
    ensures !cfg.allowFieldSelection ==> r.log == []
    decreases fs
  {
    if fs == [] then Effect([], [])
    else
      var rest := RenameNamed(cfg, prefix, s, fs[1..], name, newName);
      var f := fs[0];
      if f.name == name then
        var off := SetIsEnabled(cfg, FieldPath(prefix, s, f), f, false);
        var renamed := off.value.(name := newName);
        var on := SetIsEnabled(cfg, FieldPath(prefix, s, renamed), renamed, f.isEnabled);
        assert on.value == f.(name := newName);
        Effect([on.value] + rest.value, off.log + on.log + rest.log)
      else Effect([f] + rest.value, rest.log)
  }

  /** What a rename tells the session: for each enabled field of that name, that it was
      disabled under its old path and enabled under its new one. */
  function RenameNotices(prefix: seq<string>, s: Single, fs: seq<Field>, name: string, newName: string): seq<Notification> {
    if fs == [] then []
    else
      (if fs[0].name == name && fs[0].isEnabled
       then [Notification(FieldPath(prefix, s, fs[0]), false), Notification(FieldPath(prefix, s, fs[0].(name := newName)), true)]
       else [])
      + RenameNotices(prefix, s, fs[1..], name, newName)
  }

  /** `rename` gives each field of that name the new name and keeps its enabled state and
      everything else; no other field changes. */
  lemma {:induction false} RenameNamedValue(cfg: Config, prefix: seq<string>, s: Single, fs: seq<Field>, name: string, newName: string)
    ensures var r := RenameNamed(cfg, prefix, s, fs, name, newName).value;
      |r| == |fs| &&
      forall k :: 0 <= k < |fs| ==> r[k] == if fs[k].name == name then fs[k].(name := newName) else fs[k]
    decreases fs
  {
    if fs != [] {
      RenameNamedValue(cfg, prefix, s, fs[1..], name, newName);
    }
  }

  /** A rename reports each enabled field of that name as disabled under its old path and
      enabled under its new one. */
  lemma {:induction false} RenameNamedNotifies(cfg: Config, prefix: seq<string>, s: Single, fs: seq<Field>, name: string, newName: string)
    ensures RenameNamed(cfg, prefix, s, fs, name, newName).log ==
      if cfg.allowFieldSelection then RenameNotices(prefix, s, fs, name, newName) else []
    decreases fs
  {
    if fs != [] {
      RenameNamedNotifies(cfg, prefix, s, fs[1..], name, newName);
    }
  }

  /** The `typechange` handler: each field of that name gets a new child type. */
  function RetypeNamed(cfg: Config, prefix: seq<string>, s: Single, fs: seq<Field>, name: string, newTypeName: Option<string>): (r: Effect<seq<Field>>)
    ensures |r.value| == |fs|
    ensures forall k :: 0 <= k < |fs| ==>
      r.value[k].name == fs[k].name && r.value[k].category == fs[k].category && r.value[k].isEnabled == fs[k].isEnabled
    ensures forall n | n in r.log :: !n.isEnabled
    ensures !cfg.allowFieldSelection ==> r.log == []
    decreases fs
  {
    if fs == [] then Effect([], [])
    else
      var rest := RetypeNamed(cfg, prefix, s, fs[1..], name, newTypeName);
      if fs[0].name == name then
        var e := SetChildType(cfg, FieldPath(prefix, s, fs[0]), s.moduleName, fs[0], newTypeName);
        Effect([e.value] + rest.value, e.log + rest.log)
      else Effect([fs[0]] + rest.value, rest.log)
  }

  /** The child types a type change releases: those of the fields of that name. */
  function ReleasedChildren(prefix: seq<string>, s: Single, fs: seq<Field>, name: string): seq<Shown> {
    if fs == [] then []
    else
      (if fs[0].name == name && fs[0].childType.Some?
       then AggregateLine(FieldPath(prefix, s, fs[0]), fs[0].childType.value) else [])
      + ReleasedChildren(prefix, s, fs[1..], name)
  }

  /** `typechange` replaces the child type of each field of that name, in the owning module,
      and keeps everything else. */
  lemma {:induction false} RetypeNamedValue(cfg: Config, prefix: seq<string>, s: Single, fs: seq<Field>, name: string, newTypeName: Option<string>)
    ensures var r := RetypeNamed(cfg, prefix, s, fs, name, newTypeName).value;
      |r| == |fs| &&
      forall k :: 0 <= k < |fs| ==>
        r[k] == if fs[k].name == name then fs[k].(childType := NewChild(s.moduleName, newTypeName)) else fs[k]
    decreases fs
  {
    if fs != [] {
      RetypeNamedValue(cfg, prefix, s, fs[1..], name, newTypeName);
    }
  }

  /** A type change reports the enabled fields of the released child types as disabled. */
  lemma {:induction false} RetypeNamedNotifies(cfg: Config, prefix: seq<string>, s: Single, fs: seq<Field>, name: string, newTypeName: Option<string>)
    ensures RetypeNamed(cfg, prefix, s, fs, name, newTypeName).log ==
      if cfg.allowFieldSelection then Disables(EnabledOnly(ReleasedChildren(prefix, s, fs, name))) else []
    decreases fs
  {
    if fs != [] {
      RetypeNamedNotifies(cfg, prefix, s, fs[1..], name, newTypeName);
      var rest := ReleasedChildren(prefix, s, fs[1..], name);
      var tail := RetypeNamed(cfg, prefix, s, fs[1..], name, newTypeName).log;
      var p := FieldPath(prefix, s, fs[0]);
      if fs[0].name == name {
        var own := SetChildType(cfg, p, s.moduleName, fs[0], newTypeName).log;
        assert RetypeNamed(cfg, prefix, s, fs, name, newTypeName).log == own + tail;
        if fs[0].childType.Some? {
          var line := AggregateLine(p, fs[0].childType.value);
          assert ReleasedChildren(prefix, s, fs, name) == line + rest;
          DisableAggregateNotifies(cfg, p, fs[0].childType.value);
          EnabledOnlyAppend(line, rest);
          DisablesAppend(EnabledOnly(line), EnabledOnly(rest));
        } else {
          assert ReleasedChildren(prefix, s, fs, name) == rest;
        }
      } else {
        assert RetypeNamed(cfg, prefix, s, fs, name, newTypeName).log == tail;
        assert ReleasedChildren(prefix, s, fs, name) == rest;
      }
    }
  }

  /** The listener: applies one registry event to collection `c` of a single type. */
  function HandleEvent(cfg: Config, prefix: seq<string>, s: Single, c: Category, ev: Event): (r: Effect<Single>)
    ensures forall d :: d != c ==> Collection(r.value, d) == Collection(s, d)
    ensures r.value.typename == s.typename && r.value.moduleName == s.moduleName
    ensures r.value.isExpanded == s.isExpanded && r.value.prepared == s.prepared
  {
    match ev
    case Add(name, e) => AddExtensionField(cfg, prefix, s, c, name, e)
    case Remove(name) =>
      var e := RemoveNamed(cfg, prefix, s, Collection(s, c), name);
      Effect(WithCollection(s, c, e.value), e.log)
    case Rename(name, newName) =>
      var e := RenameNamed(cfg, prefix, s, Collection(s, c), name, newName);
      Effect(WithCollection(s, c, e.value), e.log)
    case TypeChange(name, t) =>
      var e := RetypeNamed(cfg, prefix, s, Collection(s, c), name, t);
      Effect(WithCollection(s, c, e.value), e.log)
  }

  /** An `add` appends exactly one field, unless the extension is primary. */
  lemma AddAppendsOne(cfg: Config, prefix: seq<string>, s: Single, c: Category, name: string, e: Extension)
    ensures var r := HandleEvent(cfg, prefix, s, c, Add(name, e)).value;
      if e.isPrimary then r == s
      else |Collection(r, c)| == |Collection(s, c)| + 1 && Collection(r, c)[..|Collection(s, c)|] == Collection(s, c) &&
           Collection(r, c)[|Collection(s, c)|].name == name &&
           Collection(r, c)[|Collection(s, c)|].isEnabled == (cfg.allowFieldSelection && e.createdHere)
  {
    if !e.isPrimary {
      var f := ExtensionField(s, c, name, e).(isEnabled := cfg.allowFieldSelection && e.createdHere);
      var r := HandleEvent(cfg, prefix, s, c, Add(name, e)).value;
      assert Collection(r, c) == Collection(s, c) + [f];
    }
  }

  /** After a `remove`, no field of that name is left in the collection and all others are. */
  lemma RemoveDropsExactly(cfg: Config, prefix: seq<string>, s: Single, c: Category, name: string)
    ensures var r := HandleEvent(cfg, prefix, s, c, Remove(name)).value;
      forall f :: f in Collection(r, c) <==> f in Collection(s, c) && f.name != name
  {
    RemoveNamedMeaning(cfg, prefix, s, Collection(s, c), name);
  }

  /** A rename there and back restores the collection. */
  lemma RenameBack(cfg: Config, prefix: seq<string>, s: Single, c: Category, name: string, newName: string)
    requires forall f | f in Collection(s, c) :: f.name != newName
    ensures var r := HandleEvent(cfg, prefix, s, c, Rename(name, newName)).value;
      Collection(HandleEvent(cfg, prefix, r, c, Rename(newName, name)).value, c) == Collection(s, c)
  {
    var fs := Collection(s, c);
    RenameNamedValue(cfg, prefix, s, fs, name, newName);
    var r := HandleEvent(cfg, prefix, s, c, Rename(name, newName)).value;
    RenameNamedValue(cfg, prefix, r, Collection(r, c), newName, name);
    var back := Collection(HandleEvent(cfg, prefix, r, c, Rename(newName, name)).value, c);
    forall k | 0 <= k < |fs| ensures back[k] == fs[k] {
      assert fs[k] in fs;
    }
  }
}
