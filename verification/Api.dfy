/** The API server as one controller sees it: between any two of its calls everyone else may act. */
module Api {
  import opened Objects
  import opened ZoneFile
  import opened Cluster
  import opened Invariants
  import opened Environment
  import opened Safety

  /** The answer to a read: the object, IsNotFound, or any other error. */
  datatype Reply<+T> = Found(value: T) | NotFound | Failed

  /** What a reconcile returns: no error, a request to run again, or an error. */
  datatype Outcome = Done | Requeue | Error

  /** The server's own checks on a controller's write: the object is there and its version is current. */
  predicate Accepts(p: Params, s: State, a: Action) {
    match a
    case WriteFinalizer(RecordRef(n), version, present) =>
      n in s.records && s.records[n].version == version && (present ==> !s.records[n].deleting)
    case WriteFinalizer(ZoneRef(n), version, present) =>
      n in s.zones && s.zones[n].version == version && (present ==> !s.zones[n].deleting)
    case WriteFinalizer(MapRef(n), version, _) => MapName(p, n) in s.maps && s.maps[MapName(p, n)].version == version
    case WriteFinalizer(ConnectorRef, version, present) =>
      s.connector.Some? && s.connector.value.version == version && (present ==> !s.connector.value.deleting)
    case WriteRecordStatus(_, n, version, _) => n in s.records && s.records[n].version == version
    case WriteZoneStatus(_, n, version, _) => n in s.zones && s.zones[n].version == version
    case CreateZoneMap(n, _, _, _, _) => MapName(p, n) !in s.maps
    case UpdateZoneMap(n, _, _, _, _) => MapName(p, n) in s.maps
    case CreateBackup(_) => s.backup.None?
    case WriteWorkload(version, _) => s.workload.Some? && s.workload.value.version == version
    case WriteCorefile(version, _, _, _) => s.core.Some? && s.core.value.version == version
    case WriteConnectorStatus(version, _) => s.connector.Some? && s.connector.value.version == version
    case RestoreCore => s.core.Some?
    case HealthChecked => true
    case _ => false
  }

  /** Whatever the others do meanwhile, the server accepts the write only in a state that justifies it. */
  ghost predicate Prepared(p: Params, me: Actor, s: State, a: Action) {
    forall t: State :: Inv(p, t) && Rely(p, me, s, t) && Accepts(p, t, a) ==> Enabled(p, t, a)
  }

  /** The actions of one actor, in order. */
  ghost function Own(me: Actor, trace: seq<Action>): seq<Action> {
    if trace == [] then []
    else
      var last := trace[|trace| - 1];
      Own(me, trace[..|trace| - 1]) + if ActorOf(last) == me then [last] else []
  }

  lemma OwnMore(me: Actor, trace: seq<Action>, a: Action)
    ensures Own(me, trace + [a]) == Own(me, trace) + if ActorOf(a) == me then [a] else []
  {
    assert (trace + [a])[..|trace|] == trace;
  }

  lemma {:induction false} OwnAppend(me: Actor, a: seq<Action>, b: seq<Action>)
    ensures Own(me, a + b) == Own(me, a) + Own(me, b)
  {
    if b == [] {
      assert a + b == a;
    } else {
      var init := b[..|b| - 1];
      OwnAppend(me, a, init);
      assert (a + b)[..|a + b| - 1] == a + init;
    }
  }

  lemma {:induction false} OwnIs(me: Actor, trace: seq<Action>)
    ensures forall a <- Own(me, trace) :: ActorOf(a) == me && a in trace
  {
    if trace != [] {
      OwnIs(me, trace[..|trace| - 1]);
    }
  }

  lemma NamedAs(p: Params, s: State, n: string)
    requires Inv(p, s) && n in s.records
    ensures s.records[n].name == n
  {
    hide MapsOk, ZonesOk, RecordsOk, CoreOk;
  }

  lemma RecordNames(p: Params, s: State)
    requires Inv(p, s)
    ensures forall n <- s.records :: s.records[n].name == n
  {
    hide MapsOk, ZonesOk, RecordsOk, CoreOk;
  }

  lemma ZoneNames(p: Params, s: State)
    requires Inv(p, s)
    ensures forall n <- s.zones :: s.zones[n].name == n
  {
    hide MapsOk, ZonesOk, RecordsOk, CoreOk;
  }

  ghost predicate UniqueZones(zones: seq<DNSZone>) {
    forall i, j :: 0 <= i < j < |zones| ==> zones[i].name != zones[j].name
  }

  /** The records of a zone, each once, in an arbitrary order. */
  ghost predicate IsRecordListing(records: map<string, DNSRecord>, zone: string, listing: seq<DNSRecord>) {
    && UniqueNames(listing)
    && forall x :: x in listing <==> x.name in records && records[x.name] == x && x.spec.zone == zone
  }

  ghost predicate IsZoneListing(zones: map<string, DNSZone>, connector: string, listing: seq<DNSZone>) {
    && UniqueZones(listing)
    && forall x :: x in listing <==> x.name in zones && zones[x.name] == x && x.spec.connectorName == connector
  }

  method RecordsOf(records: map<string, DNSRecord>, zone: string) returns (listing: seq<DNSRecord>)
    requires forall n <- records :: records[n].name == n
    ensures IsRecordListing(records, zone, listing)
  {
    listing := [];
    var left := records.Keys;
    while left != {}
      invariant left <= records.Keys && UniqueNames(listing)
      invariant forall x :: x in listing <==>
        x.name in records && x.name !in left && records[x.name] == x && x.spec.zone == zone
      decreases left
    {
      var n :| n in left;
      if records[n].spec.zone == zone {
        listing := listing + [records[n]];
      }
      left := left - {n};
    }
  }

  method ZonesOf(zones: map<string, DNSZone>, connector: string) returns (listing: seq<DNSZone>)
    requires forall n <- zones :: zones[n].name == n
    ensures IsZoneListing(zones, connector, listing)
  {
    listing := [];
    var left := zones.Keys;
    while left != {}
      invariant left <= zones.Keys && UniqueZones(listing)
      invariant forall x :: x in listing <==>
        x.name in zones && x.name !in left && zones[x.name] == x && x.spec.connectorName == connector
      decreases left
    {
      var n :| n in left;
      if zones[n].spec.connectorName == connector {
        listing := listing + [zones[n]];
      }
      left := left - {n};
    }
  }

  /** At some moment between two, the run was in this state. */
  ghost predicate Passed(p: Params, start: State, before: seq<Action>, s: State, after: seq<Action>) {
    exists mid :: before <= mid <= after && Run(p, start, mid) == s
  }

  lemma PassedAt(p: Params, start: State, before: seq<Action>, mid: seq<Action>, after: seq<Action>)
    requires before <= mid <= after
    ensures Passed(p, start, before, Run(p, start, mid), after)
  {
    hide Run;
  }

  lemma PassedWithin(p: Params, start: State, before: seq<Action>, b: seq<Action>, s: State, c: seq<Action>, after: seq<Action>)
    requires Passed(p, start, b, s, c) && before <= b && c <= after
    ensures Passed(p, start, before, s, after)
  {
    hide Run;
  }

  class ApiServer {
    const p: Params
    ghost const start: State
    var s: State
    ghost var trace: seq<Action>

    ghost predicate Valid()
      reads this
    {
      NamesApart(p) && Reachable(p, start, trace) && s == Run(p, start, trace) && Inv(p, s)
    }

    lemma Facts()
      requires Valid()
      ensures NamesApart(p) && Inv(p, s) && s == Run(p, start, trace)
    {}

    constructor (p: Params, s: State)
      requires NamesApart(p) && Initial(s)
      ensures Valid() && this.p == p && this.s == s && trace == []
    {
      this.p, this.start, this.s, this.trace := p, s, s, [];
      new;
      InitialInv(p, s);
    }

    method Commit(a: Action)
      requires Valid() && Enabled(p, s, a)
      modifies this
      ensures Valid() && s == Apply(p, old(s), a) && trace == old(trace) + [a]
    {
      hide Inv, Enabled, Apply, Initial, NamesApart;
      StepKeeps(p, s, a);
      ghost var was := trace;
      trace := trace + [a];
      assert trace[..|trace| - 1] == was;
      s := Apply(p, s, a);
    }

    /** The others act, in any number of enabled steps. */
    method Yield(me: Actor)
      requires Valid()
      modifies this
      ensures Valid() && old(trace) <= trace
      ensures Rely(p, me, old(s), s) && Own(me, trace) == Own(me, old(trace))
      ensures |trace| == |old(trace)| ==> s == old(s)
    {
      hide Inv, Enabled, Apply, Initial, NamesApart, Rely;
      var steps: int := *;
      RelyNothing(p, me, s);
      for i := 0 to if steps < 0 then 0 else steps
        invariant Valid() && old(trace) <= trace
        invariant Rely(p, me, old(s), s) && Own(me, trace) == Own(me, old(trace))
      {
        var a: Action := *;
        if ActorOf(a) != me && Enabled(p, s, a) {
          RelyStep(p, me, s, a);
          OwnMore(me, trace, a);
          ghost var mid := s;
          Commit(a);
          RelyTwice(p, me, old(s), mid, s);
        }
      }
      assert |trace| == |old(trace)| ==> trace == old(trace);
    }

    /** The health check: CoreDNS is found ready, or not in time. */
    method CheckHealth(me: Actor) returns (ok: bool, ghost acts: seq<Action>)
      requires Valid() && me == ConnectorController
      modifies this
      ensures Valid() && old(trace) <= trace && Own(me, trace) == Own(me, old(trace)) + acts
      ensures acts == if ok then [HealthChecked] else []
      ensures Rely(p, me, old(s), s) && |trace| >= |old(trace)| + |acts|
      ensures |trace| == |old(trace)| + |acts| ==> s == old(s)
    {
      hide Inv, Initial, NamesApart, Run, Reachable, Rely;
      Yield(me);
      acts := [];
      ok := *;
      if ok {
        OwnMore(me, trace, HealthChecked);
        Commit(HealthChecked);
        acts := [HealthChecked];
      }
    }

    /** A controller's write: it may be refused, be lost, or take effect although the caller sees an error. */
    method Write(me: Actor, a: Action) returns (ok: bool, ghost mid: State, ghost acts: seq<Action>)
      requires Valid() && ActorOf(a) == me && Prepared(p, me, s, a)
      modifies this
      ensures Valid() && old(trace) <= trace && Own(me, trace) == Own(me, old(trace)) + acts
      ensures Inv(p, mid) && Rely(p, me, old(s), mid)
      ensures acts == [] || acts == [a]
      ensures ok ==> acts == [a]
      ensures acts == [] ==> s == mid
      ensures |trace| >= |old(trace)| + |acts| && (|trace| == |old(trace)| + |acts| ==> mid == old(s))
      ensures acts == [a] ==> Accepts(p, mid, a) && Enabled(p, mid, a) && s == Apply(p, mid, a)
    {
      hide Inv, Enabled, Apply, Accepts, Initial, NamesApart, Run, Reachable, Rely;
      Yield(me);
      assert |trace| == |old(trace)| ==> trace == old(trace);
      mid, acts := s, [];
      var lost, blind: bool := *, *;
      ok := false;
      if Accepts(p, s, a) && !lost {
        OwnMore(me, trace, a);
        Commit(a);
        ok, acts := !blind, [a];
      }
    }

    // ---- reads ----

    method GetRecord(me: Actor, n: string) returns (r: Reply<DNSRecord>)
      requires Valid()
      modifies this
      ensures Valid() && old(trace) <= trace && Rely(p, me, old(s), s) && Own(me, trace) == Own(me, old(trace))
      ensures |trace| == |old(trace)| ==> s == old(s)
      ensures r.Found? ==> n in s.records && s.records[n] == r.value
      ensures r.NotFound? ==> n !in s.records
    {
      Yield(me);
      var fail: bool := *;
      r := if fail then Failed else if n in s.records then Found(s.records[n]) else NotFound;
    }

    method GetZone(me: Actor, n: string) returns (r: Reply<DNSZone>)
      requires Valid()
      modifies this
      ensures Valid() && old(trace) <= trace && Rely(p, me, old(s), s) && Own(me, trace) == Own(me, old(trace))
      ensures |trace| == |old(trace)| ==> s == old(s)
      ensures r.Found? ==> n in s.zones && s.zones[n] == r.value
      ensures r.NotFound? ==> n !in s.zones
    {
      Yield(me);
      var fail: bool := *;
      r := if fail then Failed else if n in s.zones then Found(s.zones[n]) else NotFound;
    }

    method GetMap(me: Actor, c: string) returns (r: Reply<ConfigMap>)
      requires Valid()
      modifies this
      ensures Valid() && old(trace) <= trace && Rely(p, me, old(s), s) && Own(me, trace) == Own(me, old(trace))
      ensures |trace| == |old(trace)| ==> s == old(s)
      ensures r.Found? ==> c in s.maps && s.maps[c] == r.value
      ensures r.NotFound? ==> c !in s.maps
    {
      Yield(me);
      var fail: bool := *;
      r := if fail then Failed else if c in s.maps then Found(s.maps[c]) else NotFound;
    }

    method GetConnector(me: Actor) returns (r: Reply<DNSConnector>)
      requires Valid()
      modifies this
      ensures Valid() && old(trace) <= trace && Rely(p, me, old(s), s) && Own(me, trace) == Own(me, old(trace))
      ensures |trace| == |old(trace)| ==> s == old(s)
      ensures r.Found? ==> s.connector == Some(r.value)
      ensures r.NotFound? ==> s.connector.None?
    {
      Yield(me);
      var fail: bool := *;
      r := if fail then Failed else if s.connector.Some? then Found(s.connector.value) else NotFound;
    }

    method GetCore(me: Actor) returns (r: Reply<ConfigMap>)
      requires Valid()
      modifies this
      ensures Valid() && old(trace) <= trace && Rely(p, me, old(s), s) && Own(me, trace) == Own(me, old(trace))
      ensures |trace| == |old(trace)| ==> s == old(s)
      ensures r.Found? ==> s.core == Some(r.value)
      ensures r.NotFound? ==> s.core.None?
    {
      Yield(me);
      var fail: bool := *;
      r := if fail then Failed else if s.core.Some? then Found(s.core.value) else NotFound;
    }

    method GetBackup(me: Actor) returns (r: Reply<ConfigMap>)
      requires Valid()
      modifies this
      ensures Valid() && old(trace) <= trace && Rely(p, me, old(s), s) && Own(me, trace) == Own(me, old(trace))
      ensures |trace| == |old(trace)| ==> s == old(s)
      ensures r.Found? ==> s.backup == Some(r.value)
      ensures r.NotFound? ==> s.backup.None?
    {
      Yield(me);
      var fail: bool := *;
      r := if fail then Failed else if s.backup.Some? then Found(s.backup.value) else NotFound;
    }

    method GetWorkload(me: Actor) returns (r: Reply<Workload>)
      requires Valid()
      modifies this
      ensures Valid() && old(trace) <= trace && Rely(p, me, old(s), s) && Own(me, trace) == Own(me, old(trace))
      ensures |trace| == |old(trace)| ==> s == old(s)
      ensures r.Found? ==> s.workload == Some(r.value)
      ensures r.NotFound? ==> s.workload.None?
    {
      Yield(me);
      var fail: bool := *;
      r := if fail then Failed else if s.workload.Some? then Found(s.workload.value) else NotFound;
    }

    /** List with the field selector on the zone a record refers to. */
    method ListRecords(me: Actor, zone: string) returns (r: Reply<seq<DNSRecord>>)
      requires Valid()
      modifies this
      ensures Valid() && old(trace) <= trace && Rely(p, me, old(s), s) && Own(me, trace) == Own(me, old(trace))
      ensures |trace| == |old(trace)| ==> s == old(s)
      ensures !r.NotFound?
      ensures r.Found? ==> IsRecordListing(s.records, zone, r.value)
    {
      hide Inv, Reachable, Run, Rely, IsRecordListing;
      Yield(me);
      RecordNames(p, s);
      var listing := RecordsOf(s.records, zone);
      var fail: bool := *;
      r := if fail then Failed else Found(listing);
    }

    /** List with the field selector on the connector a zone names. */
    method ListZones(me: Actor, connector: string) returns (r: Reply<seq<DNSZone>>)
      requires Valid()
      modifies this
      ensures Valid() && old(trace) <= trace && Rely(p, me, old(s), s) && Own(me, trace) == Own(me, old(trace))
      ensures |trace| == |old(trace)| ==> s == old(s)
      ensures !r.NotFound?
      ensures r.Found? ==> IsZoneListing(s.zones, connector, r.value)
    {
      hide Inv, Reachable, Run, Rely, IsZoneListing;
      Yield(me);
      ZoneNames(p, s);
      var listing := ZonesOf(s.zones, connector);
      var fail: bool := *;
      r := if fail then Failed else Found(listing);
    }
  }
}
