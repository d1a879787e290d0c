/** Loading a type's contents the first time it is shown: `prepareForRendering` of an
    aggregate type (its base types, then each backing type, then the default base-type
    inclusion) and of a single type (its native fields, then its extension fields).
    The source caches the promise of the first call; here each node carries a `prepared`
    flag, set by the first preparation, and a prepared node is returned unchanged. */
module Preparation {
  import opened Wrappers
  import opened TypeTree
  import opened Lifecycle
  import opened Extensions
  import opened Expansion

  datatype TypeRef = TypeRef(moduleName: string, typename: string)

  /** A native field as the debugger reports it: its name and its type's description. */
  datatype NativeField = NativeField(name: string, typeDescription: string)

  /** What the debugger and the extension registry answer, as plain data: the base types of
      a type (nearest first), its native fields, and the extensions registered for it in
      each extension category. */
  datatype Backend = Backend(
    baseTypes: TypeRef -> seq<TypeRef>,
    nativeFields: TypeRef -> seq<NativeField>,
    extensions: (TypeRef, Category) -> seq<(string, Extension)>)

  /** `replace(/\**$/, "")`: the type description without its trailing `*`s. */
  function StripPointers(d: string): (r: string)
    ensures |r| <= |d| && r == d[..|r|]
    ensures r == [] || r[|r| - 1] != '*'
    ensures forall k :: |r| <= k < |d| ==> d[k] == '*'
  {
    if |d| > 0 && d[|d| - 1] == '*' then StripPointers(d[..|d| - 1]) else d
  }

  lemma StripPointersIdempotent(d: string)
    ensures StripPointers(StripPointers(d)) == StripPointers(d)
  {
  }

  /** The field made for a native field: disabled, with a child type of the dereferenced type. */
  function NativeFieldOf(moduleName: string, n: NativeField): (f: Field)
    ensures f.name == n.name && f.category == Native && !f.isEnabled
    ensures f.childType == Some(NewAggregate(moduleName, StripPointers(n.typeDescription)))
  {
    Field(n.name, Native, false, Some(NewAggregate(moduleName, StripPointers(n.typeDescription))))
  }

  function NativeFieldsOf(moduleName: string, ns: seq<NativeField>): (r: seq<Field>)
    ensures |r| == |ns| && forall k :: 0 <= k < |ns| ==> r[k] == NativeFieldOf(moduleName, ns[k])
  {
    if ns == [] then [] else [NativeFieldOf(moduleName, ns[0])] + NativeFieldsOf(moduleName, ns[1..])
  }

  function RefOf(s: Single): TypeRef {
    TypeRef(s.moduleName, s.typename)
  }

  /** Single type `prepareForRendering`: the native fields are appended, then the extension
      collections are seeded from the registry in the order extended fields, descriptions,
      array fields. */
  function PrepareSingle(cfg: Config, be: Backend, prefix: seq<string>, s: Single): (r: Effect<Single>)
    ensures s.prepared ==> r == Effect(s, [])
    ensures r.value.prepared
    ensures r.value.typename == s.typename && r.value.moduleName == s.moduleName && r.value.isExpanded == s.isExpanded
  {
    if s.prepared then Effect(s, [])
    else
      var ref := RefOf(s);
      var s1 := s.(fields := s.fields + NativeFieldsOf(s.moduleName, be.nativeFields(ref)));
      var e1 := AddExtensionFields(cfg, prefix, s1, Extended, be.extensions(ref, Extended));
      var e2 := AddExtensionFields(cfg, prefix, e1.value, Description, be.extensions(ref, Description));
      var e3 := AddExtensionFields(cfg, prefix, e2.value, ArrayField, be.extensions(ref, ArrayField));
      Effect(e3.value.(prepared := true), e1.log + e2.log + e3.log)
  }

  /** A first preparation appends the native fields and the seeded extension fields to the
      right collections, after whatever was there. */
  lemma PrepareSingleContents(cfg: Config, be: Backend, prefix: seq<string>, s: Single)
    requires !s.prepared
    ensures var r := PrepareSingle(cfg, be, prefix, s).value;
      r.fields == s.fields + NativeFieldsOf(s.moduleName, be.nativeFields(RefOf(s))) &&
      r.extendedFields == s.extendedFields + SeededFields(cfg, s, Extended, be.extensions(RefOf(s), Extended)) &&
      r.descriptions == s.descriptions + SeededFields(cfg, s, Description, be.extensions(RefOf(s), Description)) &&
      r.arrayFields == s.arrayFields + SeededFields(cfg, s, ArrayField, be.extensions(RefOf(s), ArrayField))
  {
    var ref := RefOf(s);
    var s1 := s.(fields := s.fields + NativeFieldsOf(s.moduleName, be.nativeFields(ref)));
    var e1 := AddExtensionFields(cfg, prefix, s1, Extended, be.extensions(ref, Extended));
    var e2 := AddExtensionFields(cfg, prefix, e1.value, Description, be.extensions(ref, Description));
    AddExtensionFieldsAppends(cfg, prefix, s1, Extended, be.extensions(ref, Extended));
    AddExtensionFieldsAppends(cfg, prefix, e1.value, Description, be.extensions(ref, Description));
    AddExtensionFieldsAppends(cfg, prefix, e2.value, ArrayField, be.extensions(ref, ArrayField));
    SeededFieldsOwner(cfg, s1, s, Extended, be.extensions(ref, Extended));
    SeededFieldsOwner(cfg, e1.value, s, Description, be.extensions(ref, Description));
    SeededFieldsOwner(cfg, e2.value, s, ArrayField, be.extensions(ref, ArrayField));
    var e3 := AddExtensionFields(cfg, prefix, e2.value, ArrayField, be.extensions(ref, ArrayField));
    assert Collection(e3.value, Native) == Collection(e2.value, Native) == Collection(e1.value, Native) == Collection(s1, Native);
    assert Collection(e3.value, Extended) == Collection(e2.value, Extended);
    assert Collection(e3.value, Description) == Collection(e2.value, Description);
    assert Collection(e2.value, ArrayField) == Collection(e1.value, ArrayField) == Collection(s1, ArrayField);
    assert Collection(e1.value, Description) == Collection(s1, Description);
  }

  function PrepareSingles(cfg: Config, be: Backend, prefix: seq<string>, bts: seq<Single>): (r: Effect<seq<Single>>)
    ensures |r.value| == |bts|
    ensures forall k :: 0 <= k < |bts| ==> r.value[k] == PrepareSingle(cfg, be, prefix, bts[k]).value
  {
    if bts == [] then Effect([], [])
    else
      var e := PrepareSingle(cfg, be, prefix, bts[0]);
      var rest := PrepareSingles(cfg, be, prefix, bts[1..]);
      Effect([e.value] + rest.value, e.log + rest.log)
  }

  /** The inclusion rule applied once the backing types are loaded: base types are shown by
      default when the session asks for it, or when the type itself has no native fields. */
  predicate TogglesBaseTypes(cfg: Config, a: Aggregate)
    requires |a.backingTypes| > 0
  {
    cfg.includeBaseTypesByDefault || (!a.includeBaseTypes && |a.backingTypes[0].fields| == 0)
  }

  /** Aggregate `prepareForRendering`: a single type per base type is appended, every
      backing type is prepared, and then the inclusion rule is applied. An aggregate type
      whose backing types were released has nothing to prepare. */
  function PrepareAggregate(cfg: Config, be: Backend, prefix: seq<string>, a: Aggregate): (r: Effect<Aggregate>)
    ensures a.prepared || |a.backingTypes| == 0 ==> r == Effect(a, [])
    ensures |a.backingTypes| > 0 ==> r.value.prepared
    ensures r.value.searchQuery == a.searchQuery
  {
    if a.prepared || |a.backingTypes| == 0 then Effect(a, [])
    else
      var primary := a.backingTypes[0];
      var bases := be.baseTypes(RefOf(primary));
      var pushed := a.backingTypes + seq(|bases|, i requires 0 <= i < |bases| => NewSingle(bases[i].moduleName, bases[i].typename));
      var e := PrepareSingles(cfg, be, prefix, pushed);
      var a1 := a.(backingTypes := e.value);
      var a2 := if TogglesBaseTypes(cfg, a1) then ToggleIncludeBaseTypes(a1) else a1;
      Effect(a2.(prepared := true), e.log)
  }

  /** Preparation is memoised: a second preparation changes nothing and notifies nobody. */
  lemma PrepareOnce(cfg: Config, be: Backend, prefix: seq<string>, a: Aggregate)
    ensures var r := PrepareAggregate(cfg, be, prefix, a);
      PrepareAggregate(cfg, be, prefix, r.value) == Effect(r.value, [])
  {
  }

  /** After the first preparation the backing types are the type itself followed by its base
      types, all prepared, with the type's own expansion kept. */
  lemma PrepareAggregateBackingTypes(cfg: Config, be: Backend, prefix: seq<string>, a: Aggregate)
    requires !a.prepared && |a.backingTypes| == 1
    ensures var r := PrepareAggregate(cfg, be, prefix, a).value;
      var bases := be.baseTypes(RefOf(a.backingTypes[0]));
      |r.backingTypes| == 1 + |bases| &&
      IsExpanded(r) == IsExpanded(a) &&
      (forall i :: 0 <= i < |r.backingTypes| ==> r.backingTypes[i].prepared) &&
      (forall i :: 0 < i < |r.backingTypes| ==>
         RefOf(r.backingTypes[i]) == bases[i - 1])
  {
    var bases := be.baseTypes(RefOf(a.backingTypes[0]));
    var pushed := a.backingTypes + seq(|bases|, i requires 0 <= i < |bases| => NewSingle(bases[i].moduleName, bases[i].typename));
    var a1 := a.(backingTypes := PrepareSingles(cfg, be, prefix, pushed).value);
    PreparedPushed(cfg, be, prefix, a.backingTypes, bases);
    TogglePreserves(cfg, a1);
    PrepareAggregateUnfold(cfg, be, prefix, a);
  }

  /** The backing types after the base types are pushed and everything is prepared. */
  lemma PreparedPushed(cfg: Config, be: Backend, prefix: seq<string>, bts: seq<Single>, bases: seq<TypeRef>)
    requires |bts| == 1
    ensures var pushed := bts + seq(|bases|, i requires 0 <= i < |bases| => NewSingle(bases[i].moduleName, bases[i].typename));
      var r := PrepareSingles(cfg, be, prefix, pushed).value;
      |r| == 1 + |bases| && r[0].isExpanded == bts[0].isExpanded &&
      (forall i :: 0 <= i < |r| ==> r[i].prepared) &&
      (forall i :: 0 < i < |r| ==> RefOf(r[i]) == bases[i - 1])
  {
    var pushed := bts + seq(|bases|, i requires 0 <= i < |bases| => NewSingle(bases[i].moduleName, bases[i].typename));
    PrepareSinglesKeeps(cfg, be, prefix, pushed);
    forall i | 0 < i < |pushed|
      ensures RefOf(pushed[i]) == bases[i - 1]
    {
      assert pushed[i] == NewSingle(bases[i - 1].moduleName, bases[i - 1].typename);
    }
  }

  /** Preparing a list of single types keeps each type's identity and expansion. */
  lemma PrepareSinglesKeeps(cfg: Config, be: Backend, prefix: seq<string>, bts: seq<Single>)
    ensures var r := PrepareSingles(cfg, be, prefix, bts).value;
      |r| == |bts| &&
      forall i :: 0 <= i < |r| ==>
        r[i].prepared && RefOf(r[i]) == RefOf(bts[i]) && r[i].isExpanded == bts[i].isExpanded
  {
    var r := PrepareSingles(cfg, be, prefix, bts).value;
    forall i | 0 <= i < |r|
      ensures r[i].prepared && RefOf(r[i]) == RefOf(bts[i]) && r[i].isExpanded == bts[i].isExpanded
    {
      var p := PrepareSingle(cfg, be, prefix, bts[i]);
      assert r[i] == p.value;
    }
  }

  lemma PrepareAggregateUnfold(cfg: Config, be: Backend, prefix: seq<string>, a: Aggregate)
    requires !a.prepared && |a.backingTypes| > 0
    ensures var bases := be.baseTypes(RefOf(a.backingTypes[0]));
      var pushed := a.backingTypes + seq(|bases|, i requires 0 <= i < |bases| => NewSingle(bases[i].moduleName, bases[i].typename));
      var a1 := a.(backingTypes := PrepareSingles(cfg, be, prefix, pushed).value);
      PrepareAggregate(cfg, be, prefix, a).value == (if TogglesBaseTypes(cfg, a1) then ToggleIncludeBaseTypes(a1) else a1).(prepared := true)
  {
  }

  /** The inclusion rule keeps the backing types, their order and their preparation. */
  lemma TogglePreserves(cfg: Config, a: Aggregate)
    requires |a.backingTypes| > 0
    ensures var r := if TogglesBaseTypes(cfg, a) then ToggleIncludeBaseTypes(a) else a;
      |r.backingTypes| == |a.backingTypes| && IsExpanded(r) == IsExpanded(a) &&
      forall i :: 0 <= i < |a.backingTypes| ==>
        RefOf(r.backingTypes[i]) == RefOf(a.backingTypes[i]) && r.backingTypes[i].prepared == a.backingTypes[i].prepared
  {
  }

  /** The default inclusion rule of a new type: base types are included after preparation
      exactly when the session includes them by default or the type has no native fields
      of its own; either way the base types' expansion follows the type's. */
  lemma PrepareNewDefaultInclusion(cfg: Config, be: Backend, prefix: seq<string>, moduleName: string, typename: string)
    ensures var r := PrepareAggregate(cfg, be, prefix, NewAggregate(moduleName, typename)).value;
      r.includeBaseTypes ==
        (cfg.includeBaseTypesByDefault || |be.nativeFields(TypeRef(moduleName, typename))| == 0) &&
      BaseConsistent(r)
  {
    var a := NewAggregate(moduleName, typename);
    var s := PrepareSingle(cfg, be, prefix, a.backingTypes[0]).value;
    PrepareSingleContents(cfg, be, prefix, a.backingTypes[0]);
    assert |s.fields| == |be.nativeFields(TypeRef(moduleName, typename))|;
  }
}
