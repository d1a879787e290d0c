/** A field's selection state, its child type, and tearing a subtree down:
    `setIsEnabled`, `setChildType` and the three `disableCompletely` operations. */
module Lifecycle {
  import opened Wrappers
  import opened TypeTree

  /** `setIsEnabled`: nothing happens when the session does not allow selection;
      otherwise the state is set, and the controller is notified only when it changes. */
  function SetIsEnabled(cfg: Config, path: seq<string>, f: Field, isEnabled: bool): (r: Effect<Field>)
    ensures r.value == f.(isEnabled := r.value.isEnabled)
    ensures r.value.isEnabled == if cfg.allowFieldSelection then isEnabled else f.isEnabled
    ensures r.log == if r.value.isEnabled != f.isEnabled then [Notification(path, isEnabled)] else []
  {
    if !cfg.allowFieldSelection then Effect(f, [])
    else if isEnabled != f.isEnabled then Effect(f.(isEnabled := isEnabled), [Notification(path, isEnabled)])
    else Effect(f, [])
  }

  /** Field `disableCompletely`: the field is disabled, then its child type. */
  function DisableField(cfg: Config, path: seq<string>, f: Field): (r: Effect<Field>)
    ensures r.value.name == f.name && r.value.category == f.category
    ensures r.value.isEnabled == (f.isEnabled && !cfg.allowFieldSelection)
    ensures r.value.childType.Some? == f.childType.Some?
    ensures f.childType.Some? ==> r.value.childType.value.backingTypes == []
    ensures forall n | n in r.log :: !n.isEnabled
    ensures !cfg.allowFieldSelection ==> r.log == []
    decreases f, 1
  {
    var e := SetIsEnabled(cfg, path, f, false);
    if f.childType.Some? then
      var d := DisableAggregate(cfg, path, f.childType.value);
      Effect(e.value.(childType := Some(d.value)), e.log + d.log)
    else e
  }

  /** Aggregate `disableCompletely`: every backing type is disabled, then all are released. */
  function DisableAggregate(cfg: Config, prefix: seq<string>, a: Aggregate): (r: Effect<Aggregate>)
    ensures r.value.backingTypes == []
    ensures r.value.includeBaseTypes == a.includeBaseTypes && r.value.searchQuery == a.searchQuery && r.value.prepared == a.prepared
    ensures forall n | n in r.log :: !n.isEnabled
    ensures !cfg.allowFieldSelection ==> r.log == []
    decreases a, 1
  {
    Effect(a.(backingTypes := []), DisableSingles(cfg, prefix, a.backingTypes))
  }

  function DisableSingles(cfg: Config, prefix: seq<string>, bts: seq<Single>): (r: seq<Notification>)
    ensures forall n | n in r :: !n.isEnabled
    ensures !cfg.allowFieldSelection ==> r == []
    decreases bts, 1
  {
    if bts == [] then []
    else DisableSingle(cfg, prefix, bts[0]).log + DisableSingles(cfg, prefix, bts[1..])
  }

  /** Single type `disableCompletely`: every field is disabled, then the four collections are emptied. */
  function DisableSingle(cfg: Config, prefix: seq<string>, s: Single): (r: Effect<Single>)
    ensures AllFields(r.value) == []
    ensures r.value.typename == s.typename && r.value.moduleName == s.moduleName
    ensures r.value.isExpanded == s.isExpanded && r.value.prepared == s.prepared
    ensures forall n | n in r.log :: !n.isEnabled
    ensures !cfg.allowFieldSelection ==> r.log == []
    decreases s, 1
  {
    Effect(s.(fields := [], extendedFields := [], arrayFields := [], descriptions := []),
      DisableFields(cfg, prefix, s, s.fields) + DisableFields(cfg, prefix, s, s.extendedFields)
        + DisableFields(cfg, prefix, s, s.arrayFields) + DisableFields(cfg, prefix, s, s.descriptions))
  }

  function DisableFields(cfg: Config, prefix: seq<string>, s: Single, fs: seq<Field>): (r: seq<Notification>)
    ensures forall n | n in r :: !n.isEnabled
    ensures !cfg.allowFieldSelection ==> r == []
    decreases fs, 1
  {
    if fs == [] then []
    else DisableField(cfg, FieldPath(prefix, s, fs[0]), fs[0]).log + DisableFields(cfg, prefix, s, fs[1..])
  }

  /** The notifications of tearing down a field's subtree: one "disabled" notification per
      enabled field of the subtree, in visiting order, and none when selection is not allowed. */
  lemma {:induction false} DisableFieldNotifies(cfg: Config, path: seq<string>, f: Field)
    ensures DisableField(cfg, path, f).log ==
      if cfg.allowFieldSelection then Disables(EnabledOnly(FieldLine(path, f))) else []
    decreases f, 1
  {
    var own := [Shown(f, path)];
    assert EnabledOnly(own) == if f.isEnabled then own else [];
    if f.childType.Some? {
      DisableAggregateNotifies(cfg, path, f.childType.value);
      EnabledOnlyAppend(own, AggregateLine(path, f.childType.value));
      DisablesAppend(EnabledOnly(own), EnabledOnly(AggregateLine(path, f.childType.value)));
    }
  }

  lemma {:induction false} DisableAggregateNotifies(cfg: Config, prefix: seq<string>, a: Aggregate)
    ensures DisableAggregate(cfg, prefix, a).log ==
      if cfg.allowFieldSelection then Disables(EnabledOnly(AggregateLine(prefix, a))) else []
    decreases a, 1
  {
    DisableSinglesNotify(cfg, prefix, a.backingTypes);
  }

  lemma {:induction false} DisableSinglesNotify(cfg: Config, prefix: seq<string>, bts: seq<Single>)
    ensures DisableSingles(cfg, prefix, bts) ==
      if cfg.allowFieldSelection then Disables(EnabledOnly(SinglesLine(prefix, bts))) else []
    decreases bts, 1
  {
    if bts != [] {
      DisableSingleNotifies(cfg, prefix, bts[0]);
      DisableSinglesNotify(cfg, prefix, bts[1..]);
      EnabledOnlyAppend(SingleLine(prefix, bts[0]), SinglesLine(prefix, bts[1..]));
      DisablesAppend(EnabledOnly(SingleLine(prefix, bts[0])), EnabledOnly(SinglesLine(prefix, bts[1..])));
    }
  }

  /** Tearing a single type down notifies once per enabled field at any depth, and leaves no field. */
  lemma {:induction false} DisableSingleNotifies(cfg: Config, prefix: seq<string>, s: Single)
    ensures DisableSingle(cfg, prefix, s).log ==
      if cfg.allowFieldSelection then Disables(EnabledOnly(SingleLine(prefix, s))) else []
    ensures AllFields(DisableSingle(cfg, prefix, s).value) == []
    decreases s, 1
  {
    var l1, l2, l3, l4 := FieldsLine(prefix, s, s.fields), FieldsLine(prefix, s, s.extendedFields),
      FieldsLine(prefix, s, s.arrayFields), FieldsLine(prefix, s, s.descriptions);
    DisableFieldsNotify(cfg, prefix, s, s.fields);
    DisableFieldsNotify(cfg, prefix, s, s.extendedFields);
    DisableFieldsNotify(cfg, prefix, s, s.arrayFields);
    DisableFieldsNotify(cfg, prefix, s, s.descriptions);
    EnabledOnlyAppend(l1, l2);
    EnabledOnlyAppend(l1 + l2, l3);
    EnabledOnlyAppend(l1 + l2 + l3, l4);
    DisablesAppend(EnabledOnly(l1), EnabledOnly(l2));
    DisablesAppend(EnabledOnly(l1) + EnabledOnly(l2), EnabledOnly(l3));
    DisablesAppend(EnabledOnly(l1) + EnabledOnly(l2) + EnabledOnly(l3), EnabledOnly(l4));
  }

  lemma {:induction false} DisableFieldsNotify(cfg: Config, prefix: seq<string>, s: Single, fs: seq<Field>)
    ensures DisableFields(cfg, prefix, s, fs) ==
      if cfg.allowFieldSelection then Disables(EnabledOnly(FieldsLine(prefix, s, fs))) else []
    decreases fs, 1
  {
    if fs != [] {
      var p := FieldPath(prefix, s, fs[0]);
      DisableFieldNotifies(cfg, p, fs[0]);
      DisableFieldsNotify(cfg, prefix, s, fs[1..]);
      EnabledOnlyAppend(FieldLine(p, fs[0]), FieldsLine(prefix, s, fs[1..]));
      DisablesAppend(EnabledOnly(FieldLine(p, fs[0])), EnabledOnly(FieldsLine(prefix, s, fs[1..])));
    }
  }

  /** `setChildType`: the old child type is torn down, and a new one is created, in the
      owning type's module, for a non-null type name. */
  function SetChildType(cfg: Config, path: seq<string>, moduleName: string, f: Field, newTypeName: Option<string>): (r: Effect<Field>)
    ensures r.value == f.(childType := NewChild(moduleName, newTypeName))
    ensures r.log == if f.childType.Some? then DisableAggregate(cfg, path, f.childType.value).log else []
  {
    var log := if f.childType.Some? then DisableAggregate(cfg, path, f.childType.value).log else [];
    Effect(f.(childType := NewChild(moduleName, newTypeName)), log)
  }
}
