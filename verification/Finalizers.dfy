/** addFinalizer and removeFinalizer (internal/controller/finalizers.go): fetch, change in place, update. */
module Finalizers {
  import opened Objects
  import opened Cluster
  import opened Invariants
  import opened Environment
  import opened Safety
  import opened Api

  /** The controller in charge of an object's finalizer. */
  function Keeper(ref: Ref): Actor {
    match ref
    case RecordRef(n) => RecordController(n)
    case ZoneRef(n) => ZoneController(n)
    case MapRef(n) => ZoneController(n)
    case ConnectorRef => ConnectorController
  }

  predicate Exists(p: Params, s: State, ref: Ref) {
    match ref
    case RecordRef(n) => n in s.records
    case ZoneRef(n) => n in s.zones
    case MapRef(n) => MapName(p, n) in s.maps
    case ConnectorRef => s.connector.Some?
  }

  predicate Carries(p: Params, s: State, ref: Ref) {
    match ref
    case RecordRef(n) => n in s.records && s.records[n].finalizer
    case ZoneRef(n) => n in s.zones && s.zones[n].finalizer
    case MapRef(n) => MapName(p, n) in s.maps && s.maps[MapName(p, n)].finalizer
    case ConnectorRef => s.connector.Some? && s.connector.value.finalizer
  }

  function VersionOf(p: Params, s: State, ref: Ref): nat
    requires Exists(p, s, ref)
  {
    match ref
    case RecordRef(n) => s.records[n].version
    case ZoneRef(n) => s.zones[n].version
    case MapRef(n) => s.maps[MapName(p, n)].version
    case ConnectorRef => s.connector.value.version
  }

  /** What must hold before the finalizer may be put on: a zone ConfigMap has to belong to its held zone. */
  predicate MayHold(p: Params, s: State, ref: Ref) {
    ref.MapRef? && MapName(p, ref.name) in s.maps ==> ZoneHeld(s, ref.name, s.maps[MapName(p, ref.name)].owner)
  }

  /** What must hold before it may be taken off. */
  predicate MayRelease(p: Params, s: State, ref: Ref) {
    match ref
    case RecordRef(n) => n in s.records && s.records[n].finalizer && s.records[n].deleting
    case ZoneRef(n) =>
      n in s.zones && s.zones[n].finalizer && s.zones[n].deleting && !MapHeldFor(p, s, n, s.zones[n].uid)
    case MapRef(_) => true
    case ConnectorRef => ConnectorHeld(s) && s.connector.value.deleting && s.backup.Some? && !s.coreWritten
  }

  lemma MayHoldStays(p: Params, ref: Ref, s: State, t: State)
    requires Rely(p, Keeper(ref), s, t) && MayHold(p, s, ref)
    ensures MayHold(p, t, ref)
  {
    hide MapName, Fresh, OwnerAlive;
  }

  lemma MayReleaseStays(p: Params, ref: Ref, s: State, t: State)
    requires Rely(p, Keeper(ref), s, t) && MayRelease(p, s, ref)
    ensures MayRelease(p, t, ref)
  {
    hide MapName, Fresh, OwnerAlive;
  }

  lemma FinalizerAllowed(p: Params, s: State, ref: Ref, version: nat, present: bool)
    requires if present then MayHold(p, s, ref) else MayRelease(p, s, ref)
    ensures Accepts(p, s, WriteFinalizer(ref, version, present)) ==> Enabled(p, s, WriteFinalizer(ref, version, present))
  {
    hide MapName;
  }

  lemma FinalizerPrepared(p: Params, s: State, ref: Ref, version: nat, present: bool)
    requires if present then MayHold(p, s, ref) else MayRelease(p, s, ref)
    ensures Prepared(p, Keeper(ref), s, WriteFinalizer(ref, version, present))
  {
    hide Inv, Rely, Accepts, Enabled, MayHold, MayRelease;
    var a := WriteFinalizer(ref, version, present);
    forall t: State | Inv(p, t) && Rely(p, Keeper(ref), s, t) && Accepts(p, t, a) ensures Enabled(p, t, a) {
      if present { MayHoldStays(p, ref, s, t); } else { MayReleaseStays(p, ref, s, t); }
      FinalizerAllowed(p, t, ref, version, present);
    }
  }

  lemma FinalizerWritten(p: Params, s: State, ref: Ref, version: nat, present: bool)
    requires Inv(p, s) && Accepts(p, s, WriteFinalizer(ref, version, present))
    requires !present ==> MayRelease(p, s, ref)
    ensures Carries(p, Apply(p, s, WriteFinalizer(ref, version, present)), ref) == present
    ensures !present && !ref.MapRef? ==> !Exists(p, Apply(p, s, WriteFinalizer(ref, version, present)), ref)
  {
    hide MapName, MapsOk, ZonesOk, RecordsOk, CoreOk;
  }

  /** getObjFromK8s for the object behind a reference: its version and whether it carries the finalizer. */
  method Fetch(api: ApiServer, ref: Ref) returns (r: Option<(nat, bool)>)
    requires api.Valid()
    modifies api
    ensures api.Valid() && old(api.trace) <= api.trace && Rely(api.p, Keeper(ref), old(api.s), api.s)
    ensures Own(Keeper(ref), api.trace) == Own(Keeper(ref), old(api.trace))
    ensures r.Some? ==> Exists(api.p, api.s, ref) && r.value == (VersionOf(api.p, api.s, ref), Carries(api.p, api.s, ref))
  {
    hide Inv, Reachable, Run, Rely;
    match ref {
      case RecordRef(n) =>
        var x := api.GetRecord(Keeper(ref), n);
        r := if x.Found? then Some((x.value.version, x.value.finalizer)) else None;
      case ZoneRef(n) =>
        var x := api.GetZone(Keeper(ref), n);
        r := if x.Found? then Some((x.value.version, x.value.finalizer)) else None;
      case MapRef(n) =>
        var x := api.GetMap(Keeper(ref), MapName(api.p, n));
        r := if x.Found? then Some((x.value.version, x.value.finalizer)) else None;
      case ConnectorRef =>
        var x := api.GetConnector(Keeper(ref));
        r := if x.Found? then Some((x.value.version, x.value.finalizer)) else None;
    }
  }

  /** The single write a finalizer call may make. */
  ghost predicate OneFinalizerWrite(acts: seq<Action>, ref: Ref, present: bool) {
    acts == [] || (|acts| == 1 && acts[0].WriteFinalizer? && acts[0].ref == ref && acts[0].present == present)
  }

  /** Others acted from s to mid, then the controller made the writes of `acts`, at most one. */
  ghost predicate AtMostOneWrite(p: Params, me: Actor, s: State, mid: State, t: State, acts: seq<Action>) {
    && Inv(p, mid) && Rely(p, me, s, mid)
    && (if acts == [] then t == mid else |acts| == 1 && Enabled(p, mid, acts[0]) && t == Apply(p, mid, acts[0]))
  }

  method AddFinalizer(api: ApiServer, ref: Ref) returns (ok: bool, ghost acts: seq<Action>, ghost mid: State)
    requires api.Valid() && MayHold(api.p, api.s, ref)
    modifies api
    ensures api.Valid() && old(api.trace) <= api.trace
    ensures Own(Keeper(ref), api.trace) == Own(Keeper(ref), old(api.trace)) + acts && OneFinalizerWrite(acts, ref, true)
    ensures AtMostOneWrite(api.p, Keeper(ref), old(api.s), mid, api.s, acts)
    ensures ok ==> Carries(api.p, api.s, ref)
  {
    hide Inv, Reachable, Run, Rely, MayHold, MayRelease, Accepts, Enabled, Apply, Carries, Exists, VersionOf,
      Prepared;
    ghost var before := api.s;
    var r := Fetch(api, ref);
    ghost var fetched := api.s;
    acts, mid := [], fetched;
    if r.None? {
      return false, acts, mid;
    }
    if r.value.1 {
      return true, acts, mid;
    }
    MayHoldStays(api.p, ref, before, fetched);
    FinalizerPrepared(api.p, fetched, ref, r.value.0, true);
    ok, mid, acts := api.Write(Keeper(ref), WriteFinalizer(ref, r.value.0, true));
    RelyTwice(api.p, Keeper(ref), before, fetched, mid);
    if ok {
      FinalizerWritten(api.p, mid, ref, r.value.0, true);
    }
  }

  method RemoveFinalizer(api: ApiServer, ref: Ref) returns (ok: bool, ghost acts: seq<Action>, ghost mid: State)
    requires api.Valid() && MayRelease(api.p, api.s, ref)
    modifies api
    ensures api.Valid() && old(api.trace) <= api.trace
    ensures Own(Keeper(ref), api.trace) == Own(Keeper(ref), old(api.trace)) + acts && OneFinalizerWrite(acts, ref, false)
    ensures |api.trace| >= |old(api.trace)| + |acts|
    ensures AtMostOneWrite(api.p, Keeper(ref), old(api.s), mid, api.s, acts)
    ensures ok ==> !Carries(api.p, api.s, ref) && (!ref.MapRef? ==> !Exists(api.p, api.s, ref) && |acts| == 1)
  {
    hide Inv, Reachable, Run, Rely, MayHold, MayRelease, Accepts, Enabled, Apply, Carries, Exists, VersionOf,
      Prepared;
    ghost var before := api.s;
    var r := Fetch(api, ref);
    ghost var fetched := api.s;
    MayReleaseStays(api.p, ref, before, fetched);
    acts, mid := [], fetched;
    if r.None? {
      return false, acts, mid;
    }
    if !r.value.1 {
      if !ref.MapRef? {
        StillCarried(api.p, fetched, ref);
      }
      return true, acts, mid;
    }
    FinalizerPrepared(api.p, fetched, ref, r.value.0, false);
    ok, mid, acts := api.Write(Keeper(ref), WriteFinalizer(ref, r.value.0, false));
    RelyTwice(api.p, Keeper(ref), before, fetched, mid);
    if ok {
      MayReleaseStays(api.p, ref, fetched, mid);
      FinalizerWritten(api.p, mid, ref, r.value.0, false);
    }
  }

  /** Nobody else takes it off, so it is still on. */
  lemma StillCarried(p: Params, s: State, ref: Ref)
    requires MayRelease(p, s, ref) && !ref.MapRef?
    ensures Carries(p, s, ref)
  {}
}
