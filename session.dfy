/** The controller of one explorer session (`TypeExplorerController`): the root type of the
    object being explored, the notifications its field-change callback has received, and the
    coalescing of re-render requests into animation frames. */
module Session {
  import opened Wrappers
  import opened TypeTree
  import opened Expansion
  import opened Extensions
  import opened Preparation
  import opened Paths

  /** Where a single type sits: below the field at `owner` (the root type when `owner` is
      empty), at position `backing` of that field's child type. */
  datatype SingleLoc = SingleLoc(owner: seq<Step>, backing: nat)

  /** The aggregate type below a field location, or the root for the empty location. */
  predicate OwnsAggregate(root: Aggregate, owner: seq<Step>) {
    owner == [] || (Locates(root, owner) && FieldAt(root, owner).childType.Some?)
  }

  function AggregateAt(root: Aggregate, owner: seq<Step>): Aggregate
    requires OwnsAggregate(root, owner)
  {
    if owner == [] then root else FieldAt(root, owner).childType.value
  }

  /** The path prefix of the fields of that aggregate type. */
  function PrefixAt(root: Aggregate, owner: seq<Step>): seq<string>
    requires OwnsAggregate(root, owner)
  {
    if owner == [] then [] else ComputePath(root, owner)
  }

  /** The root with the aggregate type below `owner` replaced. */
  function WithAggregateAt(root: Aggregate, owner: seq<Step>, a: Aggregate): Aggregate
    requires OwnsAggregate(root, owner)
  {
    if owner == [] then a else WithFieldAt(root, owner, FieldAt(root, owner).(childType := Some(a)))
  }

  predicate HoldsSingle(root: Aggregate, at: SingleLoc) {
    OwnsAggregate(root, at.owner) && at.backing < |AggregateAt(root, at.owner).backingTypes|
  }

  function SingleAt(root: Aggregate, at: SingleLoc): Single
    requires HoldsSingle(root, at)
  {
    AggregateAt(root, at.owner).backingTypes[at.backing]
  }

  class Explorer {
    const config: Config
    const backend: Backend
    var root: Aggregate
    /** What `onFieldChange` has received, in order. */
    var notifications: seq<Notification>
    var hasRequestedRerender: bool
    /** Animation-frame callbacks scheduled and not yet run. */
    var pendingFrames: nat
    /** How many times the root type has been rendered: by `render`, or by a frame. */
    var renders: nat

    /** A requested re-render always has a frame on its way. */
    predicate Valid()
      reads this
    {
      hasRequestedRerender ==> pendingFrames > 0
    }

    /** `new TypeExplorerController(dbgObject, options)`: the root is a fresh aggregate type of
        the object's type. */
    constructor (config: Config, backend: Backend, moduleName: string, typename: string)
      ensures Valid()
      ensures this.config == config && this.backend == backend
      ensures root == NewAggregate(moduleName, typename)
      ensures notifications == [] && !hasRequestedRerender && pendingFrames == 0 && renders == 0
    {
      this.config := config;
      this.backend := backend;
      root := NewAggregate(moduleName, typename);
      notifications := [];
      hasRequestedRerender := false;
      pendingFrames := 0;
      renders := 0;
    }

    /** `render`: the request flag is cleared, then the root type is rendered. */
    method Render()
      modifies this
      ensures Valid()
      ensures !hasRequestedRerender
      ensures root == old(root) && notifications == old(notifications) && pendingFrames == old(pendingFrames)
      ensures renders == old(renders) + 1
    {
      hasRequestedRerender := false;
      renders := renders + 1;
    }

    /** `requestRerender`: a frame is scheduled only when none is already requested. */
    method RequestRerender()
      requires Valid()
      modifies this
      ensures Valid() && hasRequestedRerender
      ensures pendingFrames == old(pendingFrames) + (if old(hasRequestedRerender) then 0 else 1)
      ensures root == old(root) && notifications == old(notifications) && renders == old(renders)
    {
      if hasRequestedRerender {
        return;
      }
      hasRequestedRerender := true;
      pendingFrames := pendingFrames + 1;
    }

    /** The scheduled frame: it renders when the request is still standing, and clears it. */
    method AnimationFrame() returns (rendered: bool)
      requires Valid() && pendingFrames > 0
      modifies this
      ensures Valid() && !hasRequestedRerender
      ensures rendered == old(hasRequestedRerender)
      ensures pendingFrames == old(pendingFrames) - 1
      ensures renders == old(renders) + (if rendered then 1 else 0)
      ensures root == old(root) && notifications == old(notifications)
    {
      rendered := hasRequestedRerender;
      pendingFrames := pendingFrames - 1;
      if rendered {
        hasRequestedRerender := false;
        renders := renders + 1;
      }
    }

    /** The controller's `toggleExpansion`: the root type toggles, and a re-render is requested. */
    method ToggleExpansion()
      requires Valid()
      modifies this
      ensures Valid() && hasRequestedRerender
      ensures root == Expansion.ToggleExpansion(old(root))
      ensures notifications == old(notifications)
      ensures pendingFrames == old(pendingFrames) + (if old(hasRequestedRerender) then 0 else 1)
      ensures renders == old(renders)
    {
      root := Expansion.ToggleExpansion(root);
      RequestRerender();
    }

    /** `enableField(path)`: the path is followed from the root, preparing what it passes
        through, and the field it ends at is enabled. */
    method EnableField(path: seq<string>)
      modifies this
      ensures var e := EnableInAggregate(config, backend, [], old(root), path, 0);
        root == e.value && notifications == old(notifications) + e.log
      ensures hasRequestedRerender == old(hasRequestedRerender) && pendingFrames == old(pendingFrames)
      ensures renders == old(renders)
    {
      var e := EnableRemainingPath(config, backend, [], root, path, 0);
      root := e.value;
      notifications := notifications + e.log;
    }

    /** The extension listener of a prepared single type hears a registry event for one of
        its extension collections: the type changes, the callback hears of every field
        whose state changed, and a re-render is requested. */
    method DeliverEvent(at: SingleLoc, c: Category, ev: Event)
      requires Valid()
      requires HoldsSingle(root, at) && SingleAt(root, at).prepared && c != Native
      modifies this
      ensures Valid() && hasRequestedRerender
      ensures var a := AggregateAt(old(root), at.owner);
        var e := HandleEvent(config, PrefixAt(old(root), at.owner), a.backingTypes[at.backing], c, ev);
        root == WithAggregateAt(old(root), at.owner, a.(backingTypes := a.backingTypes[at.backing := e.value])) &&
        notifications == old(notifications) + e.log
      ensures pendingFrames == old(pendingFrames) + (if old(hasRequestedRerender) then 0 else 1)
      ensures renders == old(renders)
    {
      var a := AggregateAt(root, at.owner);
      var e := HandleEvent(config, PrefixAt(root, at.owner), a.backingTypes[at.backing], c, ev);
      root := WithAggregateAt(root, at.owner, a.(backingTypes := a.backingTypes[at.backing := e.value]));
      notifications := notifications + e.log;
      RequestRerender();
    }
  }

  /** Requests coalesce: however many requests come before the frame, only one frame is
      scheduled and it renders once. */
  method CoalescedRequests(x: Explorer, n: nat) returns (rendered: bool)
    requires x.Valid() && !x.hasRequestedRerender && x.pendingFrames == 0 && n > 0
    modifies x
    ensures rendered && x.renders == old(x.renders) + 1 && x.pendingFrames == 0
  {
    var i := 0;
    while i < n
      invariant 0 <= i <= n
      invariant x.Valid()
      invariant i > 0 ==> x.hasRequestedRerender && x.pendingFrames == 1
      invariant i == 0 ==> !x.hasRequestedRerender && x.pendingFrames == 0
      invariant x.renders == old(x.renders)
    {
      x.RequestRerender();
      i := i + 1;
    }
    rendered := x.AnimationFrame();
  }
}
