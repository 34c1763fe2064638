/** The DNSConnector controller (internal/controller/dnsconnector_controller.go), over any behaviour of the others. */
module ConnectorReconciler {
  import opened Objects
  import opened Corefile
  import opened CorefileLaws
  import opened PodTemplate
  import opened Cluster
  import opened Invariants
  import opened Environment
  import opened Safety
  import opened Api
  import opened Finalizers
  import opened ConnectorSpecs
  import opened Notices

  // ---- what the controller goes on knowing ----

  /** The connector is held, a backup stays what it is, and objects with the version that was read are unchanged. */
  ghost predicate Ahead(s: State, t: State) {
    && Fresh(s, t)
    && (ConnectorHeld(s) ==> ConnectorHeld(t) && (s.connector.value.deleting ==> t.connector.value.deleting))
    && (s.backup.Some? ==> t.backup == s.backup) && (t.backup.None? ==> s.backup.None?) && s.userData <= t.userData
  }

  lemma AheadRely(p: Params, s: State, t: State)
    requires Rely(p, ConnectorController, s, t)
    ensures Ahead(s, t)
  {
    hide Fresh;
  }

  lemma AheadTwice(s: State, t: State, u: State)
    requires VersionsOk(s) && Ahead(s, t) && Ahead(t, u)
    ensures Ahead(s, u)
  {
    hide Fresh;
    FreshTwice(s, t, u);
  }

  lemma AheadStep(p: Params, s: State, a: Action)
    requires Inv(p, s) && Enabled(p, s, a) && ActorOf(a) == ConnectorController && !a.WriteFinalizer?
    ensures Ahead(s, Apply(p, s, a))
  {
    hide MapsOk, ZonesOk, RecordsOk, CoreOk, VersionsOk, Enabled, Apply, Fresh, Touches, SameCore, BackupStep,
      ConnectorStatusSet;
    StepTouches(p, s, a);
    FreshOf(s, a, Apply(p, s, a));
    StepBackup(p, s, a);
    SameElsewhere(p, s, a);
    if OnConnector(a) {
      ConnectorStatusHeld(s, a.connectorStatus);
      ApplyStatus(p, s, a);
    }
    BackupAhead(s, a, Apply(p, s, a));
  }

  lemma FreshOf(s: State, a: Action, t: State)
    requires Touches(s, a, t)
    ensures Fresh(s, t)
  {
    hide Fresh;
  }

  lemma ApplyStatus(p: Params, s: State, a: Action)
    requires a.WriteConnectorStatus?
    ensures Apply(p, s, a) == ConnectorStatusSet(s, a.connectorStatus)
  {
    hide ConnectorStatusSet;
  }

  lemma ConnectorStatusHeld(s: State, st: ConnectorStatus)
    ensures ConnectorHeld(s) ==> ConnectorHeld(ConnectorStatusSet(s, st))
    ensures s.connector.Some? ==>
      ConnectorStatusSet(s, st).connector.Some? && ConnectorStatusSet(s, st).connector.value.deleting == s.connector.value.deleting
  {}

  lemma BackupAhead(s: State, a: Action, t: State)
    requires BackupStep(s, a, t)
    ensures (s.backup.Some? ==> t.backup == s.backup) && (t.backup.None? ==> s.backup.None?) && s.userData <= t.userData
  {}

  // ---- reads ----

  /** fetchGoodZones. */
  method FetchGoodZones(api: ApiServer, connector: string) returns (r: Option<seq<DNSZone>>)
    requires api.Valid()
    modifies api
    ensures api.Valid() && old(api.trace) <= api.trace && Rely(api.p, ConnectorController, old(api.s), api.s)
    ensures Own(ConnectorController, api.trace) == Own(ConnectorController, old(api.trace))
    ensures |api.trace| == |old(api.trace)| ==> api.s == old(api.s)
    ensures r.Some? ==> GoodZones(api.s, connector, r.value)
  {
    hide *;
    var listing := api.ListZones(ConnectorController, connector);
    if !listing.Found? {
      return None;
    }
    api.Facts();
    ListingUnique(api.s, connector, listing.value);
    var good := SelectGoodZones(listing.value);
    SelectedAreGood(api.p, api.s, connector, listing.value, good);
    r := Some(good);
  }

  lemma ListingUnique(s: State, connector: string, listing: seq<DNSZone>)
    requires IsZoneListing(s.zones, connector, listing)
    ensures UniqueZones(listing)
  {
    hide UniqueZones;
  }

  /** fetchGoodZonefileCM: the ConfigMap of every good zone, sorted by name. */
  method FetchGoodZonefileCM(api: ApiServer, connector: string)
    returns (r: Option<(seq<DNSZone>, seq<ConfigMap>)>, ghost listed: State)
    requires api.Valid()
    modifies api
    ensures api.Valid() && old(api.trace) <= api.trace && Rely(api.p, ConnectorController, old(api.s), api.s)
    ensures Own(ConnectorController, api.trace) == Own(ConnectorController, old(api.trace))
    ensures Rely(api.p, ConnectorController, old(api.s), listed)
    ensures |api.trace| == |old(api.trace)| ==> api.s == listed == old(api.s)
    ensures r.Some? ==> GoodZones(listed, connector, r.value.0) && MapsOf(api.p, r.value.0, r.value.1)
    ensures r.Some? ==> Passed(api.p, api.start, old(api.trace), listed, api.trace)
  {
    hide *;
    ghost var before, start := api.s, api.trace;
    api.Facts();
    var fetched := FetchGoodZones(api, connector);
    listed := api.s;
    if fetched.None? {
      return None, listed;
    }
    var zones := fetched.value;
    api.Facts();
    var items: seq<ConfigMap> := [];
    NothingFetched(api.p, zones);
    ghost var listedTrace := api.trace;
    for i := 0 to |zones|
      invariant |api.trace| >= |listedTrace| && (|api.trace| == |listedTrace| ==> api.s == listed)
      invariant api.Valid() && start <= listedTrace <= api.trace && Rely(api.p, ConnectorController, before, api.s)
      invariant Own(ConnectorController, api.trace) == Own(ConnectorController, start)
      invariant |items| == i && FetchedFor(api.p, zones, items)
    {
      ghost var top := api.s;
      var cm := api.GetMap(ConnectorController, zones[i].status.zoneConfigmap);
      RelyTwice(api.p, ConnectorController, before, top, api.s);
      if !cm.Found? {
        return None, listed;
      }
      api.Facts();
      FetchedGenuine(api.p, api.s, zones, items);
      items := items + [cm.value];
    }
    MapsDiffer(api.p, listed, connector, zones, items);
    var sorted := SortMaps(items);
    SortedIsMapsOf(api.p, zones, items, sorted);
    PassedAt(api.p, api.start, start, listedTrace, api.trace);
    r := Some((zones, sorted));
  }

  lemma NothingFetched(p: Params, zones: seq<DNSZone>)
    ensures FetchedFor(p, zones, [])
  {}

  // ---- the writes of the controller ----

  /** dnsConnectorUpdateStatus: writes only if the status differs from that at the start of the pass. */
  method UpdateStatus(api: ApiServer, conn: DNSConnector, previous: ConnectorStatus, st: ConnectorStatus)
    returns (r: Option<DNSConnector>, ghost acts: seq<Action>)
    requires api.Valid() && OneReady(st.conditions)
    modifies api
    ensures api.Valid() && old(api.trace) <= api.trace && Rely(api.p, ConnectorController, old(api.s), api.s)
    ensures Own(ConnectorController, api.trace) == Own(ConnectorController, old(api.trace)) + acts
    ensures |api.trace| >= |old(api.trace)| + |acts|
    ensures |api.trace| == |old(api.trace)| + |acts| ==>
      && api.s.zones == old(api.s).zones && api.s.core == old(api.s).core && api.s.workload == old(api.s).workload
    ensures acts == [] || acts == [WriteConnectorStatus(conn.version, st)]
    ensures r.Some? ==> (acts != [] || st == previous) && r.value.status == st
  {
    hide *;
    ghost var before := api.s;
    api.Facts();
    acts := [];
    if st == previous {
      RelyNothing(api.p, ConnectorController, before);
      return Some(conn.(status := st)), acts;
    }
    var a := WriteConnectorStatus(conn.version, st);
    StatusPrepared(api.p, before, conn.version, st);
    var ok;
    ghost var mid;
    ok, mid, acts := api.Write(ConnectorController, a);
    r := None;
    if acts != [] {
      StatusHarmless(api.p, mid, a);
      RelyTwice(api.p, ConnectorController, before, mid, api.s);
      StatusStored(api.p, mid, a);
      OtherObjectsSame(api.p, mid, a);
    }
    if ok {
      r := Some(api.s.connector.value);
    }
  }

  lemma StatusPrepared(p: Params, s: State, version: nat, st: ConnectorStatus)
    requires OneReady(st.conditions)
    ensures Prepared(p, ConnectorController, s, WriteConnectorStatus(version, st))
    ensures ActorOf(WriteConnectorStatus(version, st)) == ConnectorController
  {
    hide Inv, Rely;
  }

  lemma StatusHarmless(p: Params, s: State, a: Action)
    requires Inv(p, s) && NamesApart(p) && Enabled(p, s, a) && a.WriteConnectorStatus?
    ensures Rely(p, ConnectorController, s, Apply(p, s, a))
  {
    hide Inv, Enabled, Apply, Rely, NamesApart;
    RelyStep(p, ConnectorController, s, a);
  }

  /** The controller's writes leave the zones alone, except for the notices, and the CoreDNS ConfigMap, except for the splice. */
  lemma OtherObjectsSame(p: Params, s: State, a: Action)
    requires ActorOf(a) == ConnectorController
    ensures !a.WriteZoneStatus? && !a.WriteFinalizer? ==> Apply(p, s, a).zones == s.zones
    ensures !a.WriteCorefile? && !a.RestoreCore? ==> Apply(p, s, a).core == s.core
    ensures !a.WriteWorkload? ==> Apply(p, s, a).workload == s.workload
  {
    hide Apply, CoreStep;
    SameElsewhere(p, s, a);
    StepCore(p, s, a);
    if !a.WriteCorefile? && !a.RestoreCore? {
      CoreUnlessSpliced(s, a, Apply(p, s, a));
    }
  }

  lemma CoreUnlessSpliced(s: State, a: Action, t: State)
    requires CoreStep(s, a, t) && ActorOf(a) == ConnectorController && !a.WriteCorefile? && !a.RestoreCore?
    ensures t.core == s.core
  {
    hide CorefileJustified, WrittenData;
  }

  lemma StatusStored(p: Params, s: State, a: Action)
    requires a.WriteConnectorStatus? && Accepts(p, s, a)
    ensures Apply(p, s, a).connector.Some? && Apply(p, s, a).connector.value.status == a.connectorStatus
  {}

  /** backupOriginalCorefileCM: the ConfigMap that was read is copied unless there is a backup already. */
  method BackupOriginal(api: ApiServer, ghost read: State, core: ConfigMap) returns (ok: bool, ghost acts: seq<Action>)
    requires api.Valid() && Inv(api.p, read) && read.core == Some(core) && ConnectorHeld(read) && Ahead(read, api.s)
    modifies api
    ensures api.Valid() && old(api.trace) <= api.trace && Ahead(read, api.s)
    ensures Own(ConnectorController, api.trace) == Own(ConnectorController, old(api.trace)) + acts
    ensures |api.trace| >= |old(api.trace)| + |acts|
    ensures |api.trace| == |old(api.trace)| + |acts| ==> api.s.zones == old(api.s).zones && api.s.core == old(api.s).core
    ensures acts == [] || (acts == [CreateBackup(core.data)] && old(api.s).backup.None?)
    ensures ok ==> api.s.backup.Some?
  {
    hide *;
    acts := [];
    ghost var before := api.s;
    ReadVersions(api.p, read);
    var backup := api.GetBackup(ConnectorController);
    ghost var fetched := api.s;
    AheadRely(api.p, before, fetched);
    AheadTwice(read, before, fetched);
    if backup.Failed? {
      return false, acts;
    }
    if backup.Found? {
      return true, acts;
    }
    BackupStillMissing(before, fetched);
    BackupPrepared(api.p, read, fetched, core);
    ghost var mid;
    ok, mid, acts := api.Write(ConnectorController, CreateBackup(core.data));
    AheadRely(api.p, fetched, mid);
    AheadTwice(read, fetched, mid);
    if acts != [] {
      AheadOwn(api.p, mid, CreateBackup(core.data));
      OtherObjectsSame(api.p, mid, CreateBackup(core.data));
      AheadTwice(read, mid, api.s);
      BackupMade(api.p, mid, core.data);
    }
  }

  lemma ReadVersions(p: Params, s: State)
    requires Inv(p, s)
    ensures VersionsOk(s)
  {
    hide VersionsOk;
  }

  lemma BackupStillMissing(s: State, t: State)
    requires Ahead(s, t) && t.backup.None?
    ensures s.backup.None?
  {
    hide Fresh;
  }

  lemma BackupPrepared(p: Params, read: State, s: State, core: ConfigMap)
    requires Inv(p, read) && read.core == Some(core) && ConnectorHeld(read) && Ahead(read, s) && s.backup.None?
    ensures Prepared(p, ConnectorController, s, CreateBackup(core.data))
    ensures ActorOf(CreateBackup(core.data)) == ConnectorController
  {
    hide Fresh, MapsOk, ZonesOk, RecordsOk, VersionsOk, SafeConnector;
  }

  lemma BackupMade(p: Params, s: State, data: map<string, string>)
    ensures Apply(p, s, CreateBackup(data)).backup.Some?
  {}

  lemma AheadOwn(p: Params, s: State, a: Action)
    requires Inv(p, s) && Enabled(p, s, a) && ActorOf(a) == ConnectorController && !a.WriteFinalizer?
    ensures Ahead(s, Apply(p, s, a))
  {
    hide Inv, Enabled, Apply, Ahead;
    AheadStep(p, s, a);
  }

  /** The Corefile may be written: it is the one that was read, it is backed up, and the connector is held. */
  ghost predicate MayWriteCorefile(p: Params, read: State, s: State, conn: ConnectorSpec, plan: Plan, now: string) {
    && Inv(p, read) && read.core == Some(plan.core) && Ahead(read, s) && ConnectorHeld(s) && s.backup.Some?
    && SafeConnector(conn) && PlanOk(p, conn, now, plan)
  }

  lemma CorefilePrepared(p: Params, read: State, s: State, conn: ConnectorSpec, plan: Plan, now: string)
    requires MayWriteCorefile(p, read, s, conn, plan, now)
    ensures Prepared(p, ConnectorController, s, WriteCorefile(plan.core.version, conn, plan.items, plan.corefileOrder))
  {
    hide MapsOk, ZonesOk, RecordsOk, CoreOk, IsOrderOf, ScanText, Blocks, Domains, SafeConnector, GoodDomain,
      ZoneEntryOk, Remounted, MapsOf, VolumeEntryOk;
    NoConnectorErrors(p, plan.zones, plan.items);
    var a := WriteCorefile(plan.core.version, conn, plan.items, plan.corefileOrder);
    forall t: State | Inv(p, t) && Rely(p, ConnectorController, s, t) && Accepts(p, t, a) ensures Enabled(p, t, a) {
      FreshTwice(read, s, t);
      SameCoreMap(read, t);
    }
  }

  lemma SameCoreMap(s: State, t: State)
    requires VersionsOk(s) && Fresh(s, t) && s.core.Some? && t.core.Some? && t.core.value.version == s.core.value.version
    ensures t.core == s.core
  {}

  lemma ToldReady(conn: DNSConnector, ready: bool, reason: string, message: string, now: int)
    requires OwnConditions(conn.status.conditions)
    ensures OneReady(Told(conn, ready, reason, message, now))
    ensures IsReady(Told(conn, ready, reason, message, now)) <==> ready
    ensures Says(Told(conn, ready, reason, message, now), ready, conn.generation)
  {
    hide IsReady;
    SetSays(conn.status.conditions, Condition(READY, ready, reason, message, conn.generation, now));
    SaysReady(Told(conn, ready, reason, message, now), ready, conn.generation);
  }

  /** Every failure of a pass ends alike: refresh, a condition that is not ready, and the error. */
  method Fail(api: ApiServer, conn: DNSConnector, previous: ConnectorStatus, reason: string, message: string, now: int)
    returns (told: bool, ghost acts: seq<Action>)
    requires api.Valid() && OwnConditions(conn.status.conditions)
    modifies api
    ensures api.Valid() && old(api.trace) <= api.trace
    ensures Own(ConnectorController, api.trace) == Own(ConnectorController, old(api.trace)) + acts
    ensures |api.trace| >= |old(api.trace)| + |acts|
    ensures |api.trace| == |old(api.trace)| + |acts| ==>
      && api.s.zones == old(api.s).zones && api.s.core == old(api.s).core && api.s.workload == old(api.s).workload
    ensures acts == [] ||
      acts == [WriteConnectorStatus(conn.version, conn.status.(conditions := Told(conn, false, reason, message, now)))]
    ensures told ==> acts != [] || conn.status.(conditions := Told(conn, false, reason, message, now)) == previous
  {
    hide *;
    told, acts := false, [];
    var fetched := api.GetConnector(ConnectorController);
    if !fetched.Found? {
      return;
    }
    ToldReady(conn, false, reason, message, now);
    var r;
    r, acts := UpdateStatus(api, conn, previous, conn.status.(conditions := Told(conn, false, reason, message, now)));
    told := r.Some?;
  }

  /** The connector object as the controller read it. */
  ghost predicate ReadConn(p: Params, begun: State, conn: DNSConnector) {
    Inv(p, begun) && begun.connector == Some(conn) && conn.finalizer
  }

  lemma ReadConnFacts(p: Params, begun: State, conn: DNSConnector)
    requires ReadConn(p, begun, conn)
    ensures VersionsOk(begun) && ConnectorHeld(begun) && SafeConnector(conn.spec) && OwnConditions(conn.status.conditions)
  {
    hide MapsOk, ZonesOk, RecordsOk, VersionsOk, SafeConnector;
  }

  lemma HeldAhead(s: State, t: State)
    requires Ahead(s, t) && ConnectorHeld(s)
    ensures ConnectorHeld(t)
  {
    hide Fresh;
  }

  /** A status that is not ready and lists the same zones as before. */
  predicate ReportsFailure(conn: DNSConnector, a: Action) {
    && a.WriteConnectorStatus? && a.connectorStatus.provisioned == conn.status.provisioned
    && !IsReady(a.connectorStatus.conditions)
  }

  /** A pass that fails this early writes only the backup, and a status that is not ready and still lists the same zones. */
  ghost predicate FailedActs(conn: DNSConnector, core: Option<ConfigMap>, acts: seq<Action>) {
    forall a <- acts ::
      || (core.Some? && a == CreateBackup(core.value.data))
      || ReportsFailure(conn, a)
  }

  lemma NothingFailed(conn: DNSConnector, core: Option<ConfigMap>)
    ensures FailedActs(conn, core, [])
  {}

  lemma FailedWith(conn: DNSConnector, core: Option<ConfigMap>, backup: seq<Action>, told: seq<Action>, version: nat,
                   conditions: seq<Condition>)
    requires !IsReady(conditions)
    requires backup == [] || (core.Some? && backup == [CreateBackup(core.value.data)])
    requires told == [] || told == [WriteConnectorStatus(version, conn.status.(conditions := conditions))]
    ensures FailedActs(conn, core, backup + told) && FailedActs(conn, core, told)
  {}

  /** A failure this early in a pass, after `backup`. */
  method FailEarly(api: ApiServer, conn: DNSConnector, ghost core: Option<ConfigMap>, ghost backup: seq<Action>,
                   reason: string, message: string, now: int) returns (ghost acts: seq<Action>)
    requires api.Valid() && OwnConditions(conn.status.conditions)
    requires backup == [] || (core.Some? && backup == [CreateBackup(core.value.data)])
    modifies api
    ensures api.Valid() && old(api.trace) <= api.trace
    ensures Own(ConnectorController, api.trace) == Own(ConnectorController, old(api.trace)) + acts
    ensures |api.trace| >= |old(api.trace)| + |acts|
    ensures |api.trace| == |old(api.trace)| + |acts| ==> api.s.zones == old(api.s).zones && api.s.core == old(api.s).core
    ensures FailedActs(conn, core, backup + acts) && FailedActs(conn, core, acts)
  {
    hide *;
    var told;
    told, acts := Fail(api, conn, conn.status, reason, message, now);
    ToldReady(conn, false, reason, message, now);
    FailedWith(conn, core, backup, acts, conn.version, Told(conn, false, reason, message, now));
  }

  lemma FailedMore(conn: DNSConnector, core: Option<ConfigMap>, backup: seq<Action>, more: seq<Action>)
    requires backup == [] || (core.Some? && backup == [CreateBackup(core.value.data)])
    requires FailedActs(conn, core, more)
    ensures FailedActs(conn, core, backup + more)
  {}

  lemma CanResplice(conn: ConnectorSpec, core: ConfigMap, items: seq<ConfigMap>, order: seq<string>)
    requires (forall cm <- items :: ZoneEntryOk(cm)) && conn.corefileKey in core.data
    requires IsOrderOf(order, ScanText(core.data[conn.corefileKey], Blocks(conn, Domains(items))).blocks.Keys)
    ensures Respliceable(conn, core, items, order)
  {}

  lemma IsRemounted(conn: ConnectorSpec, was: Template, items: seq<ConfigMap>, order: seq<string>, now: string, t: Template)
    requires |was.containers| > 0 && forall cm <- items :: VolumeEntryOk(cm)
    requires IsOrderOf(order, DesiredOf(items).Keys) && forall name <- order :: name in DesiredOf(items)
    requires t.annotations == was.annotations["reconcilation-request" := now]
    requires t.volumes == NewVolumes(was.volumes, order, DesiredOf(items)) && |t.containers| == |was.containers|
    requires forall i :: 0 <= i < |t.containers| ==>
      t.containers[i] == was.containers[i].(mounts := NewMounts(was.containers[0].mounts, conn.mountDir, order, DesiredOf(items)))
    ensures Remounted(conn, was, items, order, now, t)
  {
    hide DesiredOf, IsOrderOf, NewVolumes, NewMounts, VolumeEntryOk;
  }

  /** The splice and the volumes, computed on what was read; it fails exactly on the three malformed-ConfigMap errors. */
  method BuildPlan(conn: ConnectorSpec, core: ConfigMap, workload: Workload, zones: seq<DNSZone>, items: seq<ConfigMap>, stamp: string)
    returns (r: Result<Plan>)
    requires |workload.template.containers| > 0
    ensures r.Ok? <==> conn.corefileKey in core.data && forall cm <- items :: ZoneEntryOk(cm) && VolumeEntryOk(cm)
    ensures r.Ok? ==>
      && r.value.core == core && r.value.workload == workload && r.value.zones == zones && r.value.items == items
      && Respliceable(conn, core, items, r.value.corefileOrder)
      && Remounted(conn, workload.template, items, r.value.volumeOrder, stamp, r.value.template)
  {
    hide *;
    var generated, order := GenerateCorefileCM(conn, core, items);
    if generated.Err? {
      return Err("could not generate a new corefile");
    }
    var pod := new PodTemplateSpec(workload.template);
    var attached, volumeOrder := SetZoneFileConfigMaps(conn, pod, items, stamp);
    if !attached {
      return Err("could not attach zone file config maps");
    }
    var template := Template(pod.annotations, pod.volumes, pod.containers);
    CanResplice(conn, core, items, order);
    IsRemounted(conn, workload.template, items, volumeOrder, stamp, template);
    r := Ok(Plan(core, workload, zones, items, template, volumeOrder, order));
  }

  /** From the deployment on: nothing is written here unless it fails. */
  method Compute(api: ApiServer, conn: DNSConnector, core: ConfigMap, ghost read: State, stamp: string, now: int)
    returns (r: Option<Plan>, ghost listed: State, ghost acts: seq<Action>)
    requires api.Valid() && Inv(api.p, read) && read.core == Some(core) && SafeConnector(conn.spec)
    requires Ahead(read, api.s) && ConnectorHeld(api.s) && api.s.backup.Some? && OwnConditions(conn.status.conditions)
    modifies api
    ensures api.Valid() && old(api.trace) <= api.trace
    ensures Own(ConnectorController, api.trace) == Own(ConnectorController, old(api.trace)) + acts
    ensures |api.trace| >= |old(api.trace)| + |acts|
    ensures |api.trace| == |old(api.trace)| + |acts| ==> api.s.zones == old(api.s).zones && api.s.core == old(api.s).core
    ensures |api.trace| == |old(api.trace)| + |acts| && r.Some? ==> listed.zones == old(api.s).zones
    ensures r.None? ==> FailedActs(conn, Some(core), acts)
    ensures r.Some? ==> acts == [] && MayWriteCorefile(api.p, read, api.s, conn.spec, r.value, stamp) && r.value.core == core
    ensures r.Some? ==> Ahead(read, listed) && GoodZones(listed, conn.name, r.value.zones)
    ensures r.Some? ==> Passed(api.p, api.start, old(api.trace), listed, api.trace)
  {
    hide *;
    r, acts, listed := None, [], read;
    ghost var start := api.trace;
    ghost var before := api.s;
    NothingFailed(conn, Some(core));
    ReadVersions(api.p, read);
    var workload := api.GetWorkload(ConnectorController);
    ghost var s1 := api.s;
    StillMay(api.p, read, before, s1);
    if !workload.Found? {
      acts := FailEarly(api, conn, Some(core), [], "Error", "could not find coredns deployment", now);
      return;
    }
    api.Facts();
    HasContainer(api.p, s1);
    var lists;
    ghost var mid := api.trace;
    lists, listed := FetchGoodZonefileCM(api, conn.name);
    StillMay(api.p, read, s1, listed);
    ghost var s2 := api.s;
    StillMay(api.p, read, s1, s2);
    if lists.None? {
      return;
    }
    var zones, items := lists.value.0, lists.value.1;
    var built := BuildPlan(conn.spec, core, workload.value, zones, items, stamp);
    if built.Err? {
      acts := FailEarly(api, conn, Some(core), [], "UpdateError", built.message, now);
      return;
    }
    PlanIsOk(api.p, conn.spec, stamp, built.value);
    PlanMayBeWritten(api.p, read, s2, conn.spec, built.value, stamp);
    PassedWithin(api.p, api.start, start, mid, listed, api.trace, api.trace);
    r := Some(built.value);
  }

  lemma StillMay(p: Params, read: State, s: State, t: State)
    requires Inv(p, read) && Ahead(read, s) && ConnectorHeld(s) && s.backup.Some? && Rely(p, ConnectorController, s, t)
    ensures Ahead(read, t) && ConnectorHeld(t) && t.backup.Some?
  {
    hide Ahead, Rely, VersionsOk, MapsOk, ZonesOk, RecordsOk, CoreOk;
    ReadVersions(p, read);
    AheadRely(p, s, t);
    HeldAhead(s, t);
    AheadTwice(read, s, t);
    BackupAheadStays(s, t);
  }

  lemma BackupAheadStays(s: State, t: State)
    requires Ahead(s, t) && s.backup.Some?
    ensures t.backup == s.backup
  {
    hide Fresh;
  }

  lemma HasContainer(p: Params, s: State)
    requires Inv(p, s)
    ensures s.workload.Some? ==> |s.workload.value.template.containers| > 0
  {
    hide MapsOk, ZonesOk, RecordsOk, CoreOk;
  }

  lemma PlanIsOk(p: Params, conn: ConnectorSpec, now: string, plan: Plan)
    requires MapsOf(p, plan.zones, plan.items)
    requires Respliceable(conn, plan.core, plan.items, plan.corefileOrder)
    requires Remounted(conn, plan.workload.template, plan.items, plan.volumeOrder, now, plan.template)
    ensures PlanOk(p, conn, now, plan)
  {
    hide MapsOf, Respliceable, Remounted;
  }

  lemma PlanMayBeWritten(p: Params, read: State, s: State, conn: ConnectorSpec, plan: Plan, now: string)
    requires Inv(p, read) && read.core == Some(plan.core) && Ahead(read, s) && ConnectorHeld(s) && s.backup.Some?
    requires SafeConnector(conn) && PlanOk(p, conn, now, plan)
    ensures MayWriteCorefile(p, read, s, conn, plan, now)
  {
    hide Inv, Ahead, ConnectorHeld, SafeConnector, PlanOk;
  }

  /** The first half of reconcileDNSConnector: everything is read, backed up and computed. */
  method Prepare(api: ApiServer, conn: DNSConnector, stamp: string, now: int)
    returns (r: Option<Plan>, core: Option<ConfigMap>, ghost read: State, ghost listed: State, ghost acts: seq<Action>)
    requires api.Valid() && ReadConn(api.p, api.s, conn)
    modifies api
    ensures api.Valid() && old(api.trace) <= api.trace
    ensures Own(ConnectorController, api.trace) == Own(ConnectorController, old(api.trace)) + acts
    ensures |api.trace| >= |old(api.trace)| + |acts|
    ensures |api.trace| == |old(api.trace)| + |acts| ==> api.s.zones == old(api.s).zones && api.s.core == old(api.s).core
    ensures |api.trace| == |old(api.trace)| + |acts| && r.Some? ==> listed.zones == old(api.s).zones
    ensures r.None? ==> FailedActs(conn, core, acts)
    ensures r.Some? ==>
      && MayWriteCorefile(api.p, read, api.s, conn.spec, r.value, stamp) && core == Some(r.value.core)
      && (acts == [] || acts == [CreateBackup(r.value.core.data)])
      && Ahead(old(api.s), read) && Ahead(read, listed) && GoodZones(listed, conn.name, r.value.zones)
      && Passed(api.p, api.start, old(api.trace), read, api.trace) && Passed(api.p, api.start, old(api.trace), listed, api.trace)
  {
    hide *;
    ghost var begun, start := api.s, api.trace;
    r, core, acts, read, listed := None, None, [], begun, begun;
    NothingFailed(conn, core);
    ReadConnFacts(api.p, begun, conn);
    var fetched := api.GetCore(ConnectorController);
    read := api.s;
    ghost var since := api.trace;
    AheadRely(api.p, begun, read);
    HeldAhead(begun, read);
    api.Facts();
    ReadVersions(api.p, read);
    if !fetched.Found? {
      acts := FailEarly(api, conn, core, [], "Error", "could not detect corefile", now);
      return;
    }
    core := Some(fetched.value);
    NothingFailed(conn, core);
    if conn.spec.corefileKey !in fetched.value.data {
      ToldReady(conn, false, "Error", "could not detect corefile", now);
      var st := conn.status.(conditions := Told(conn, false, "Error", "could not detect corefile", now));
      var updated;
      updated, acts := UpdateStatus(api, conn, conn.status, st);
      FailedWith(conn, core, [], acts, conn.version, st.conditions);
      return;
    }
    NothingAhead(read);
    var ok;
    ghost var more;
    ok, acts := BackupOriginal(api, read, fetched.value);
    if !ok {
      more := FailEarly(api, conn, core, acts, "Error", "could not backup the original corefile", now);
      acts := acts + more;
      return;
    }
    ghost var base := api.s;
    HeldAhead(read, base);
    var plan;
    ghost var half := api.trace;
    plan, listed, more := Compute(api, conn, fetched.value, read, stamp, now);
    if plan.None? {
      FailedMore(conn, core, acts, more);
    } else {
      PassedAt(api.p, api.start, start, since, api.trace);
      PassedWithin(api.p, api.start, start, half, listed, api.trace, api.trace);
    }
    r := plan;
    acts := acts + more;
  }

  lemma NothingAhead(s: State)
    ensures Ahead(s, s)
  {}

  // ---- telling the zones ----

  /** The status writes of the loop over the zones, for the zones as they were fetched again. */
  ghost function NotesFor(seen: seq<DNSZone>, notice: Notice, now: int): seq<Action> {
    if seen == [] then []
    else
      var last := seen[|seen| - 1];
      NotesFor(seen[..|seen| - 1], notice, now) +
      if last.status.validationPassed then
        [WriteZoneStatus(ConnectorController, last.name, last.version, Noticed(last, notice, now))]
      else []
  }

  /** The zones seen are the listed ones, fetched again. */
  ghost predicate SeenAgain(zones: seq<DNSZone>, seen: seq<DNSZone>) {
    && |seen| <= |zones|
    && forall i :: 0 <= i < |seen| ==> seen[i].name == zones[i].name && OwnConditions(seen[i].status.conditions)
  }

  /** Each write is a zone status that says ready, or not ready. */
  predicate NotesSay(notes: seq<Action>, ready: bool) {
    forall a <- notes :: a.WriteZoneStatus? && (IsReady(a.zoneStatus.conditions) <==> ready)
  }

  lemma {:induction false} AllNotesSay(seen: seq<DNSZone>, notice: Notice, now: int)
    requires forall i :: 0 <= i < |seen| ==> OwnConditions(seen[i].status.conditions)
    ensures NotesSay(NotesFor(seen, notice, now), notice.ready)
  {
    hide Noticed, IsReady, OwnConditions, Says;
    if seen != [] {
      var last := seen[|seen| - 1];
      AllNotesSay(seen[..|seen| - 1], notice, now);
      NoticedSays(last, notice, now);
      SaysReady(Noticed(last, notice, now).conditions, notice.ready, last.generation);
    }
  }

  lemma FirstNotesSay(zones: seq<DNSZone>, seen: seq<DNSZone>, notice: Notice, now: int, notes: seq<Action>)
    requires SeenAgain(zones, seen) && notes <= NotesFor(seen, notice, now)
    ensures NotesSay(notes, notice.ready)
  {
    hide NotesFor, IsReady, OwnConditions;
    AllNotesSay(seen, notice, now);
    forall a <- notes ensures a in NotesFor(seen, notice, now) {
      var i :| 0 <= i < |notes| && notes[i] == a;
      assert NotesFor(seen, notice, now)[i] == a;
    }
  }

  lemma NotesMore(seen: seq<DNSZone>, zone: DNSZone, notice: Notice, now: int)
    ensures NotesFor(seen + [zone], notice, now) == NotesFor(seen, notice, now) +
      if zone.status.validationPassed then
        [WriteZoneStatus(ConnectorController, zone.name, zone.version, Noticed(zone, notice, now))]
      else []
  {
    hide Noticed;
    assert (seen + [zone])[..|seen|] == seen;
  }

  lemma NoticePrepared(p: Params, s: State, n: string, notice: Notice, now: int)
    requires Inv(p, s) && n in s.zones && s.zones[n].status.validationPassed
    ensures var me := ConnectorController;
      && Prepared(p, me, s, WriteZoneStatus(me, n, s.zones[n].version, Noticed(s.zones[n], notice, now)))
      && ActorOf(WriteZoneStatus(me, n, s.zones[n].version, Noticed(s.zones[n], notice, now))) == me
  {
    hide Fresh, MapsOk, ZonesOk, RecordsOk, CoreOk, Steady, Admitted;
    ZoneOkAt(p, s, n);
    var a := WriteZoneStatus(ConnectorController, n, s.zones[n].version, Noticed(s.zones[n], notice, now));
    forall t: State | Inv(p, t) && Rely(p, ConnectorController, s, t) && Accepts(p, t, a) ensures Enabled(p, t, a) {
      SameZone(s, t, n);
    }
  }

  lemma NoticeHarmless(p: Params, s: State, a: Action)
    requires Inv(p, s) && NamesApart(p) && Enabled(p, s, a) && a.WriteZoneStatus?
    ensures Rely(p, ConnectorController, s, Apply(p, s, a))
  {
    hide Inv, Enabled, Apply, Rely, NamesApart;
    RelyStep(p, ConnectorController, s, a);
  }

  lemma NoticeStep(p: Params, s: State, zones: seq<DNSZone>, i: nat, notice: Notice, now: int)
    requires i < |zones| && zones[i].name in s.zones
    ensures Names(zones)[..i + 1] == Names(zones)[..i] + [zones[i].name]
    ensures var was := s.zones[zones[i].name];
      was.status.validationPassed ==>
        NotifyOne(s, zones[i].name, notice, now) ==
        Apply(p, s, WriteZoneStatus(ConnectorController, zones[i].name, was.version, Noticed(was, notice, now)))
    ensures !s.zones[zones[i].name].status.validationPassed ==> NotifyOne(s, zones[i].name, notice, now) == s
  {
    hide Noticed, ZoneStatusSet;
  }

  lemma NotifiedMore(s: State, names: seq<string>, n: string, notice: Notice, now: int)
    ensures NotifyAll(s, names + [n], notice, now) == NotifyOne(NotifyAll(s, names, notice, now), n, notice, now)
  {
    hide NotifyOne;
    assert (names + [n])[..|names|] == names;
  }

  /** notifyGoodDNSZones; if nobody else acts meanwhile, it does to the store what NotifyAll says. */
  method NotifyGoodDNSZones(api: ApiServer, zones: seq<DNSZone>, notice: Notice, now: int)
    returns (ok: bool, seen: seq<DNSZone>, ghost acts: seq<Action>)
    requires api.Valid()
    modifies api
    ensures api.Valid() && old(api.trace) <= api.trace && Rely(api.p, ConnectorController, old(api.s), api.s)
    ensures Own(ConnectorController, api.trace) == Own(ConnectorController, old(api.trace)) + acts
    ensures SeenAgain(zones, seen) && acts <= NotesFor(seen, notice, now)
    ensures ok ==> |seen| == |zones| && acts == NotesFor(seen, notice, now)
    ensures NotesSay(acts, notice.ready)
    ensures |api.trace| >= |old(api.trace)| + |acts|
    ensures |api.trace| == |old(api.trace)| + |acts| ==> api.s.core == old(api.s).core && api.s.workload == old(api.s).workload
    ensures ok && |api.trace| == |old(api.trace)| + |acts| ==> api.s == NotifyAll(old(api.s), Names(zones), notice, now)
  {
    hide *;
    seen, acts := [], [];
    ghost var before, start := api.s, api.trace;
    api.Facts();
    RelyNothing(api.p, ConnectorController, before);
    NobodyNotified(before, zones, notice, now);
    FirstNotesSay(zones, seen, notice, now, acts);
    for i := 0 to |zones|
      invariant api.Valid() && start <= api.trace && Rely(api.p, ConnectorController, before, api.s)
      invariant Own(ConnectorController, api.trace) == Own(ConnectorController, start) + acts
      invariant |seen| == i && SeenAgain(zones, seen) && acts == NotesFor(seen, notice, now)
      invariant i <= |Names(zones)| == |zones| && |api.trace| >= |start| + |acts|
      invariant |api.trace| == |start| + |acts| ==> api.s.core == before.core && api.s.workload == before.workload
      invariant |api.trace| == |start| + |acts| ==> api.s == NotifyAll(before, Names(zones)[..i], notice, now)
    {
      ghost var top, topTrace, done := api.s, api.trace, acts;
      api.Facts();
      var fetched := api.GetZone(ConnectorController, zones[i].name);
      api.Facts();
      assert |api.trace| == |topTrace| ==> api.trace == topTrace;
      RelyTwice(api.p, ConnectorController, before, top, api.s);
      if !fetched.Found? {
        FirstNotesSay(zones, seen, notice, now, acts);
        return false, seen, acts;
      }
      var zone := fetched.value;
      ghost var read := api.s;
      ZoneNamedAs(api.p, read, zones[i].name);
      NoticeStep(api.p, read, zones, i, notice, now);
      NotifiedMore(before, Names(zones)[..i], zones[i].name, notice, now);
      NotesMore(seen, zone, notice, now);
      OneMoreSeen(zones, seen, zone);
      seen := seen + [zone];
      if zone.status.validationPassed {
        NoticePrepared(api.p, read, zones[i].name, notice, now);
        var a := WriteZoneStatus(ConnectorController, zone.name, zone.version, Noticed(zone, notice, now));
        var written;
        ghost var mid, one;
        written, mid, one := api.Write(ConnectorController, a);
        RelyTwice(api.p, ConnectorController, before, read, mid);
        if one != [] {
          NoticeHarmless(api.p, mid, a);
          OtherObjectsSame(api.p, mid, a);
          RelyTwice(api.p, ConnectorController, before, mid, api.s);
        }
        acts := done + one;
        if !written {
          FirstNotesSay(zones, seen, notice, now, acts);
          return false, seen, acts;
        }
      }
    }
    AllNamed(zones);
    FirstNotesSay(zones, seen, notice, now, acts);
    ok := true;
  }

  lemma ZoneNamedAs(p: Params, s: State, n: string)
    requires Inv(p, s) && n in s.zones
    ensures s.zones[n].name == n && OwnConditions(s.zones[n].status.conditions)
  {
    hide MapsOk, RecordsOk, CoreOk;
  }

  lemma OneMoreSeen(zones: seq<DNSZone>, seen: seq<DNSZone>, zone: DNSZone)
    requires SeenAgain(zones, seen) && |seen| < |zones| && zone.name == zones[|seen|].name
    requires OwnConditions(zone.status.conditions)
    ensures SeenAgain(zones, seen + [zone])
  {
    hide OwnConditions;
  }

  lemma NobodyNotified(s: State, zones: seq<DNSZone>, notice: Notice, now: int)
    ensures |Names(zones)| == |zones| && NotifyAll(s, Names(zones)[..0], notice, now) == s
    ensures SeenAgain(zones, []) && NotesFor([], notice, now) == []
  {}

  lemma AllNamed(zones: seq<DNSZone>)
    ensures Names(zones)[..|zones|] == Names(zones)
  {}

  // ---- the second half of a pass ----

  lemma MayStays(p: Params, read: State, s: State, t: State, conn: ConnectorSpec, plan: Plan, now: string)
    requires MayWriteCorefile(p, read, s, conn, plan, now) && Rely(p, ConnectorController, s, t)
    ensures MayWriteCorefile(p, read, t, conn, plan, now)
  {
    hide Inv, Ahead, ConnectorHeld, SafeConnector, PlanOk, Rely;
    StillMay(p, read, s, t);
  }

  lemma WorkloadPrepared(p: Params, s: State, w: Workload, t: Template)
    requires |t.containers| > 0
    ensures Prepared(p, ConnectorController, s, WriteWorkload(w.version, t))
    ensures ActorOf(WriteWorkload(w.version, t)) == ConnectorController
  {
    hide Inv, Rely;
  }

  lemma CorefileIsOwn(version: nat, conn: ConnectorSpec, items: seq<ConfigMap>, order: seq<string>)
    ensures ActorOf(WriteCorefile(version, conn, items, order)) == ConnectorController
  {}

  lemma WorkloadHarmless(p: Params, s: State, a: Action)
    requires Inv(p, s) && NamesApart(p) && Enabled(p, s, a) && a.WriteWorkload?
    ensures Rely(p, ConnectorController, s, Apply(p, s, a))
  {
    hide Inv, Enabled, Apply, Rely, NamesApart;
    RelyStep(p, ConnectorController, s, a);
  }

  lemma PlanHasContainer(p: Params, conn: ConnectorSpec, now: string, plan: Plan)
    requires PlanOk(p, conn, now, plan)
    ensures |plan.template.containers| > 0
  {
    hide MapsOf, Respliceable, DesiredOf, IsOrderOf, NewVolumes, NewMounts, VolumeEntryOk;
  }

  lemma PlanAnnotated(p: Params, conn: ConnectorSpec, now: string, plan: Plan)
    requires PlanOk(p, conn, now, plan)
    ensures forall cm <- plan.items :: Annotated(cm)
  {
    hide MapsOf, Respliceable, Remounted, Complete, Annotated;
    NoConnectorErrors(p, plan.zones, plan.items);
    forall cm <- plan.items ensures Annotated(cm) {
      CompleteAnnotated(cm);
    }
  }

  /** The two writes that bring a plan about. */
  function Pushes(conn: ConnectorSpec, plan: Plan): seq<Action> {
    [ WriteWorkload(plan.workload.version, plan.template),
      WriteCorefile(plan.core.version, conn, plan.items, plan.corefileOrder) ]
  }

  /** The CoreDNS ConfigMap is the one that was read, with the Corefile spliced as planned. */
  predicate CorefileStands(core: Option<ConfigMap>, conn: ConnectorSpec, plan: Plan) {
    && Respliceable(conn, plan.core, plan.items, plan.corefileOrder)
    && DataIn(core) == Some(plan.core.data[conn.corefileKey := CorefileOf(conn, plan)])
  }

  /** Both writes stand: the Corefile as planned, and the pod template. */
  predicate PushStands(t: State, conn: ConnectorSpec, plan: Plan) {
    CorefileStands(t.core, conn, plan) && t.workload.Some? && t.workload.value.template == plan.template
  }

  /** The deployment first, then the Corefile. */
  method Push(api: ApiServer, conn: ConnectorSpec, plan: Plan, ghost read: State, stamp: string)
    returns (ok: bool, ghost acts: seq<Action>)
    requires api.Valid() && MayWriteCorefile(api.p, read, api.s, conn, plan, stamp)
    modifies api
    ensures api.Valid() && old(api.trace) <= api.trace
    ensures Own(ConnectorController, api.trace) == Own(ConnectorController, old(api.trace)) + acts
    ensures acts <= Pushes(conn, plan) && (ok ==> |acts| == 2)
    ensures |acts| == 2 ==> CorefileStands(api.s.core, conn, plan)
    ensures |api.trace| >= |old(api.trace)| + |acts|
    ensures |api.trace| == |old(api.trace)| + |acts| ==>
      && api.s.zones == old(api.s).zones && (|acts| == 2 ==> PushStands(api.s, conn, plan))
  {
    hide *;
    ghost var before := api.s;
    PushesAre(conn, plan);
    MayFacts(api.p, read, before, conn, plan, stamp);
    PlanHasContainer(api.p, conn, stamp, plan);
    WorkloadPrepared(api.p, before, plan.workload, plan.template);
    ghost var mid, more;
    var attach := WriteWorkload(plan.workload.version, plan.template);
    var splice := WriteCorefile(plan.core.version, conn, plan.items, plan.corefileOrder);
    ok, mid, acts := api.Write(ConnectorController, attach);
    MayStays(api.p, read, before, mid, conn, plan, stamp);
    if acts != [] {
      OtherObjectsSame(api.p, mid, attach);
      Attached(api.p, mid, plan.workload.version, plan.template);
    }
    if !ok {
      return;
    }
    ghost var attached := api.s;
    api.Facts();
    WorkloadHarmless(api.p, mid, attach);
    MayStays(api.p, read, mid, attached, conn, plan, stamp);
    CorefilePrepared(api.p, read, attached, conn, plan, stamp);
    CorefileIsOwn(plan.core.version, conn, plan.items, plan.corefileOrder);
    ok, mid, more := api.Write(ConnectorController, splice);
    MayStays(api.p, read, attached, mid, conn, plan, stamp);
    if more != [] {
      OtherObjectsSame(api.p, mid, splice);
      SpliceStands(api.p, read, mid, conn, plan, stamp);
      if api.s.workload == attached.workload {
        BothStand(api.s, conn, plan);
      }
    }
    acts := acts + more;
  }

  lemma Attached(p: Params, s: State, version: nat, t: Template)
    requires Accepts(p, s, WriteWorkload(version, t))
    ensures var after := Apply(p, s, WriteWorkload(version, t)); after.workload.Some? && after.workload.value.template == t
  {}

  lemma BothStand(t: State, conn: ConnectorSpec, plan: Plan)
    requires CorefileStands(t.core, conn, plan) && t.workload.Some? && t.workload.value.template == plan.template
    ensures PushStands(t, conn, plan)
  {
    hide CorefileStands;
  }

  lemma StillStand(s: State, t: State, conn: ConnectorSpec, plan: Plan)
    requires t.core == s.core && t.workload == s.workload
    ensures PushStands(s, conn, plan) ==> PushStands(t, conn, plan)
  {
    hide CorefileStands;
  }

  lemma PushesAre(conn: ConnectorSpec, plan: Plan)
    ensures |Pushes(conn, plan)| == 2 && Pushes(conn, plan)[0] == WriteWorkload(plan.workload.version, plan.template)
    ensures Pushes(conn, plan)[1] == WriteCorefile(plan.core.version, conn, plan.items, plan.corefileOrder)
    ensures ActorOf(Pushes(conn, plan)[0]) == ActorOf(Pushes(conn, plan)[1]) == ConnectorController
  {}

  lemma SpliceStands(p: Params, read: State, s: State, conn: ConnectorSpec, plan: Plan, now: string)
    requires MayWriteCorefile(p, read, s, conn, plan, now)
    requires var a := WriteCorefile(plan.core.version, conn, plan.items, plan.corefileOrder); Accepts(p, s, a) && Enabled(p, s, a)
    ensures CorefileStands(Apply(p, s, WriteCorefile(plan.core.version, conn, plan.items, plan.corefileOrder)).core, conn, plan)
  {
    hide *;
    var a := WriteCorefile(plan.core.version, conn, plan.items, plan.corefileOrder);
    MayFacts(p, read, s, conn, plan, now);
    AcceptedVersion(p, s, a);
    CoreAsRead(p, read, s, conn, plan, now);
    JustifiedWrite(p, s, a);
    PlanRespliceable(p, conn, now, plan);
    StepCore(p, s, a);
    WrittenIsPlanned(s, conn, plan);
    StandsIs(p, s, conn, plan, a);
  }

  lemma AcceptedVersion(p: Params, s: State, a: Action)
    requires Accepts(p, s, a) && a.WriteCorefile?
    ensures s.core.Some? && s.core.value.version == a.version
  {}

  lemma StandsIs(p: Params, s: State, conn: ConnectorSpec, plan: Plan, a: Action)
    requires a == WriteCorefile(plan.core.version, conn, plan.items, plan.corefileOrder)
    requires s.core == Some(plan.core) && CorefileJustified(s, conn, plan.items, plan.corefileOrder)
    requires CoreStep(s, a, Apply(p, s, a)) && Respliceable(conn, plan.core, plan.items, plan.corefileOrder)
    requires WrittenData(s, conn, plan.items, plan.corefileOrder) == plan.core.data[conn.corefileKey := CorefileOf(conn, plan)]
    ensures CorefileStands(Apply(p, s, a).core, conn, plan)
  {
    hide Apply, WrittenData, CorefileOf, CorefileJustified, Respliceable, OnCore;
  }

  lemma CoreAsRead(p: Params, read: State, s: State, conn: ConnectorSpec, plan: Plan, now: string)
    requires MayWriteCorefile(p, read, s, conn, plan, now) && s.core.Some? && s.core.value.version == plan.core.version
    ensures s.core == Some(plan.core)
  {
    hide MapsOk, ZonesOk, RecordsOk, CoreOk, PlanOk, SafeConnector, ConnectorHeld, Fresh;
    SameCoreMap(read, s);
  }

  lemma PlanRespliceable(p: Params, conn: ConnectorSpec, now: string, plan: Plan)
    requires PlanOk(p, conn, now, plan)
    ensures Respliceable(conn, plan.core, plan.items, plan.corefileOrder)
  {
    hide MapsOf, Remounted, Respliceable;
  }

  lemma WrittenIsPlanned(s: State, conn: ConnectorSpec, plan: Plan)
    requires s.core == Some(plan.core) && CorefileJustified(s, conn, plan.items, plan.corefileOrder)
    requires Respliceable(conn, plan.core, plan.items, plan.corefileOrder)
    ensures WrittenData(s, conn, plan.items, plan.corefileOrder) == plan.core.data[conn.corefileKey := CorefileOf(conn, plan)]
  {
    hide Spliced, Blocks, Domains, ScanText, IsOrderOf, ZoneEntryOk;
  }

  lemma MayFacts(p: Params, read: State, s: State, conn: ConnectorSpec, plan: Plan, now: string)
    requires MayWriteCorefile(p, read, s, conn, plan, now)
    ensures PlanOk(p, conn, now, plan) && read.core == Some(plan.core)
  {
    hide PlanOk, Inv, Ahead, ConnectorHeld, SafeConnector;
  }

  /**
   * The writes of the second half of a pass, stage by stage, with the state in which the zones
   * were told, the zones as they were fetched again for that, and the last status.
   */
  datatype PassLog = PassLog(
    pushed: seq<Action>,
    told: seq<Action>,
    healthy: bool,
    failed: seq<Action>,
    noticed: State,
    seen: seq<DNSZone>,
    notes: seq<Action>,
    active: seq<Action>,
    final: ConnectorStatus)

  function Updating(conn: DNSConnector, now: int): ConnectorStatus {
    conn.status.(conditions := Told(conn, false, "Updating", "coredns is being updated", now))
  }

  /** Everything after the two writes of the plan. */
  function Settled(log: PassLog): seq<Action> {
    log.told + (if log.healthy then [HealthChecked] else []) + log.failed + (log.notes + log.active)
  }

  function Delivered(log: PassLog): seq<Action> {
    log.pushed + Settled(log)
  }

  /**
   * How far any pass can get: the deployment, the Corefile, the "updating" status, the health
   * check; then either one status that keeps the list of provisioned zones, or the notices and
   * the ready status. Nothing is taken back.
   */
  ghost predicate Staged(conn: DNSConnector, plan: Plan, now: int, log: PassLog) {
    && log.pushed <= Pushes(conn.spec, plan)
    && (log.told == [] || (|log.pushed| == 2 && ToldUpdating(conn, now, log.told)))
    && (log.healthy ==> |log.pushed| == 2 && (log.told != [] || Updating(conn, now) == conn.status) && log.failed == [])
    && (log.failed == [] || KeepsProvisioned(conn, log.failed))
    && (log.notes + log.active != [] ==> log.healthy)
    && SeenAgain(plan.zones, log.seen) && log.notes <= NotesFor(log.seen, PICKED_UP, now) && NotesSay(log.notes, true)
    && (log.active != [] ==> Reports(plan, now, log) && ReportsFinal(log))
  }

  ghost predicate ToldUpdating(conn: DNSConnector, now: int, told: seq<Action>) {
    told == [WriteConnectorStatus(conn.version, Updating(conn, now))] && ReportsFailure(conn, told[0])
  }

  /** A single status write, which is not ready and lists the same zones as before. */
  ghost predicate KeepsProvisioned(conn: DNSConnector, acts: seq<Action>) {
    |acts| == 1 && ReportsFailure(conn, acts[0])
  }

  /** Every zone was told, and the last status is ready and lists the zones of the plan. */
  ghost predicate Reports(plan: Plan, now: int, log: PassLog) {
    && |log.seen| == |plan.zones| && log.notes == NotesFor(log.seen, PICKED_UP, now)
    && (forall cm <- plan.items :: Annotated(cm))
    && log.final.provisioned == Provisioned(plan.items) && IsReady(log.final.conditions)
  }

  ghost predicate ReportsFinal(log: PassLog) {
    |log.active| == 1 && log.active[0].WriteConnectorStatus? && log.active[0].connectorStatus == log.final
  }

  /** A pass that got through; its last status is written unless it was there from the start. */
  ghost predicate LogOk(conn: DNSConnector, plan: Plan, now: int, log: PassLog) {
    && Staged(conn, plan, now, log) && log.healthy && Reports(plan, now, log)
    && (log.active == [] ==> log.final == conn.status)
  }

  /** A write of the workload, the Corefile, or a status that is not ready and lists the same zones as before. */
  predicate BeforeHealth(conn: DNSConnector, a: Action) {
    a.WriteWorkload? || a.WriteCorefile? || ReportsFailure(conn, a)
  }

  /**
   * Nothing of a pass is taken back, and until CoreDNS is healthy the list of provisioned zones
   * stays and no status is ready.
   */
  lemma NoRollback(conn: DNSConnector, plan: Plan, now: int, log: PassLog)
    requires Staged(conn, plan, now, log)
    ensures forall a <- Delivered(log) :: !a.RestoreCore? && !a.WriteFinalizer?
    ensures !log.healthy ==> forall a <- Delivered(log) :: BeforeHealth(conn, a)
  {
    hide Staged;
    PushedAndTold(conn, plan, now, log);
    NotesAndActive(conn, plan, now, log);
    forall a <- Delivered(log)
      ensures !a.RestoreCore? && !a.WriteFinalizer? && (!log.healthy ==> BeforeHealth(conn, a))
    {
      assert a in log.pushed || a in log.told || a == HealthChecked || a in log.failed || a in log.notes || a in log.active;
    }
  }

  lemma PushedAndTold(conn: DNSConnector, plan: Plan, now: int, log: PassLog)
    requires Staged(conn, plan, now, log)
    ensures forall a :: a in log.pushed || a in log.told || a in log.failed ==> BeforeHealth(conn, a)
  {
    hide NotesFor, Reports, ReportsFinal, Pushes, SeenAgain, Updating, ReportsFailure;
    PushesAre(conn.spec, plan);
    forall a | a in log.pushed ensures BeforeHealth(conn, a) {
      var i :| 0 <= i < |log.pushed| && log.pushed[i] == a;
      assert log.pushed[i] == Pushes(conn.spec, plan)[i];
    }
  }

  lemma NotesAndActive(conn: DNSConnector, plan: Plan, now: int, log: PassLog)
    requires Staged(conn, plan, now, log)
    ensures forall a <- log.notes :: a.WriteZoneStatus?
    ensures forall a <- log.active :: a.WriteConnectorStatus?
    ensures !log.healthy ==> log.notes == log.active == []
  {
    hide NotesFor, Reports, Pushes, SeenAgain, ToldUpdating, KeepsProvisioned, IsReady;
    assert |log.notes + log.active| == |log.notes| + |log.active|;
  }

  lemma UpdatingTold(conn: DNSConnector, now: int)
    requires OwnConditions(conn.status.conditions)
    ensures OneReady(Updating(conn, now).conditions)
    ensures ToldUpdating(conn, now, [WriteConnectorStatus(conn.version, Updating(conn, now))])
  {
    hide Told, IsReady, OneReady;
    ToldReady(conn, false, "Updating", "coredns is being updated", now);
  }

  /** The status that closes a pass. */
  method ReportActive(api: ApiServer, conn: DNSConnector, previous: ConnectorStatus, plan: Plan, now: int)
    returns (ok: bool, ghost active: seq<Action>, ghost final: ConnectorStatus)
    requires api.Valid() && OwnConditions(conn.status.conditions) && forall cm <- plan.items :: Annotated(cm)
    modifies api
    ensures api.Valid() && old(api.trace) <= api.trace
    ensures Own(ConnectorController, api.trace) == Own(ConnectorController, old(api.trace)) + active
    ensures |api.trace| >= |old(api.trace)| + |active|
    ensures |api.trace| == |old(api.trace)| + |active| ==>
      && api.s.zones == old(api.s).zones && api.s.core == old(api.s).core && api.s.workload == old(api.s).workload
    ensures active == [] || active == [WriteConnectorStatus(conn.version, final)]
    ensures ok || active != [] ==>
      && final == ConnectorStatus(Told(conn, true, "Active", "CoreDNS Ready", now), Provisioned(plan.items))
      && IsReady(final.conditions)
    ensures ok && active == [] ==> final == previous
  {
    hide *;
    active, final := [], previous;
    var stats := BuildProvisioned(plan.items);
    if stats.Err? {
      return false, active, final;
    }
    var fetched := api.GetConnector(ConnectorController);
    if !fetched.Found? {
      return false, active, final;
    }
    ToldReady(conn, true, "Active", "CoreDNS Ready", now);
    var st := ConnectorStatus(Told(conn, true, "Active", "CoreDNS Ready", now), stats.value);
    var r;
    r, active := UpdateStatus(api, conn, previous, st);
    return r.Some?, active, st;
  }

  /** The "updating" status and the health check; a failed check is reported, and nothing else. */
  method AwaitHealth(api: ApiServer, conn: DNSConnector, now: int)
    returns (r: Option<DNSConnector>, healthy: bool, ghost told: seq<Action>, ghost failed: seq<Action>)
    requires api.Valid() && OwnConditions(conn.status.conditions)
    modifies api
    ensures api.Valid() && old(api.trace) <= api.trace
    ensures var acts := told + (if healthy then [HealthChecked] else []) + failed;
      && Own(ConnectorController, api.trace) == Own(ConnectorController, old(api.trace)) + acts
      && |api.trace| >= |old(api.trace)| + |acts|
      && (|api.trace| == |old(api.trace)| + |acts| ==> api.s.zones == old(api.s).zones && api.s.core == old(api.s).core && api.s.workload == old(api.s).workload)
    ensures told == [] || ToldUpdating(conn, now, told)
    ensures healthy ==> failed == [] && (told != [] || Updating(conn, now) == conn.status)
    ensures failed == [] || KeepsProvisioned(conn, failed)
    ensures (r.Some? <==> healthy) && (r.Some? ==> OwnConditions(r.value.status.conditions))
  {
    hide *;
    r, healthy, told, failed := None, false, [], [];
    var fetched := api.GetConnector(ConnectorController);
    if !fetched.Found? {
      return;
    }
    UpdatingTold(conn, now);
    var current;
    current, told := UpdateStatus(api, conn, conn.status, Updating(conn, now));
    if current.None? {
      return;
    }
    NowOwn(current.value);
    ghost var more;
    healthy, more := api.CheckHealth(ConnectorController);
    if healthy {
      r := current;
    } else {
      var reported;
      reported, failed := Fail(api, current.value, conn.status, "UpdateError", "healthcheck failure", now);
      StillUpdating(conn, current.value, now);
      FailureKeeps(conn, current.value, "UpdateError", "healthcheck failure", now, failed);
    }
  }

  lemma NowOwn(current: DNSConnector)
    ensures OneReady(current.status.conditions) ==> OwnConditions(current.status.conditions)
  {}

  lemma StillUpdating(conn: DNSConnector, current: DNSConnector, now: int)
    requires current.status == Updating(conn, now)
    ensures current.status.provisioned == conn.status.provisioned
  {
    hide Told;
  }

  lemma FailureKeeps(conn: DNSConnector, current: DNSConnector, reason: string, message: string, now: int, acts: seq<Action>)
    requires OwnConditions(current.status.conditions) && current.status.provisioned == conn.status.provisioned
    requires acts == [] || acts ==
      [WriteConnectorStatus(current.version, current.status.(conditions := Told(current, false, reason, message, now)))]
    ensures acts == [] || KeepsProvisioned(conn, acts)
  {
    hide Told, IsReady, OneReady;
    ToldReady(current, false, reason, message, now);
  }

  /** The zones are told, then the connector reports. */
  method Finish(api: ApiServer, conn: DNSConnector, previous: ConnectorStatus, plan: Plan, now: int)
    returns (ok: bool, seen: seq<DNSZone>, ghost notes: seq<Action>, ghost active: seq<Action>, ghost final: ConnectorStatus)
    requires api.Valid() && OwnConditions(conn.status.conditions) && forall cm <- plan.items :: Annotated(cm)
    modifies api
    ensures api.Valid() && old(api.trace) <= api.trace
    ensures Own(ConnectorController, api.trace) == Own(ConnectorController, old(api.trace)) + notes + active
    ensures SeenAgain(plan.zones, seen) && notes <= NotesFor(seen, PICKED_UP, now) && NotesSay(notes, true)
    ensures active == [] || active == [WriteConnectorStatus(conn.version, final)]
    ensures ok || active != [] ==>
      && |seen| == |plan.zones| && notes == NotesFor(seen, PICKED_UP, now)
      && final.provisioned == Provisioned(plan.items) && IsReady(final.conditions)
    ensures ok ==> active != [] || final == previous
    ensures |api.trace| >= |old(api.trace)| + |notes + active|
    ensures |api.trace| == |old(api.trace)| + |notes + active| ==>
      && api.s.core == old(api.s).core && api.s.workload == old(api.s).workload
      && (ok ==> api.s.zones == NotifyAll(old(api.s), Names(plan.zones), PICKED_UP, now).zones)
  {
    hide *;
    NoticesAre();
    active, final := [], previous;
    ok, seen, notes := NotifyGoodDNSZones(api, plan.zones, PICKED_UP, now);
    if ok {
      ok, active, final := ReportActive(api, conn, previous, plan, now);
    }
  }

  lemma FailureStaged(conn: DNSConnector, plan: Plan, now: int, log: PassLog)
    requires log.pushed <= Pushes(conn.spec, plan) && !log.healthy && log.seen == [] && log.notes == [] && log.active == []
    requires log.told == [] || (|log.pushed| == 2 && ToldUpdating(conn, now, log.told))
    requires log.failed == [] || KeepsProvisioned(conn, log.failed)
    ensures Staged(conn, plan, now, log)
  {
    hide Updating, KeepsProvisioned, ToldUpdating;
  }

  lemma HealthyStaged(conn: DNSConnector, plan: Plan, now: int, log: PassLog)
    requires log.pushed <= Pushes(conn.spec, plan) && |log.pushed| == 2 && log.healthy && log.failed == []
    requires log.told == [] || ToldUpdating(conn, now, log.told)
    requires log.told != [] || Updating(conn, now) == conn.status
    requires SeenAgain(plan.zones, log.seen) && log.notes <= NotesFor(log.seen, PICKED_UP, now) && NotesSay(log.notes, true)
    requires log.active == [] || ReportsFinal(log)
    requires log.active != [] ==> Reports(plan, now, log)
    ensures Staged(conn, plan, now, log)
    ensures Reports(plan, now, log) && (log.active == [] ==> log.final == conn.status) ==> LogOk(conn, plan, now, log)
  {
    hide Updating, SeenAgain, Reports, ReportsFinal, NotesFor, ToldUpdating;
  }

  /** After the splice: health, notices, status. The spliced Corefile is not touched any more. */
  method Settle(api: ApiServer, conn: DNSConnector, plan: Plan, now: int)
    returns (r: Outcome, ghost log: PassLog)
    requires api.Valid() && OwnConditions(conn.status.conditions) && forall cm <- plan.items :: Annotated(cm)
    modifies api
    ensures api.Valid() && old(api.trace) <= api.trace && r != Requeue
    ensures Own(ConnectorController, api.trace) == Own(ConnectorController, old(api.trace)) + Settled(log)
    ensures log.pushed == Pushes(conn.spec, plan)
    ensures Staged(conn, plan, now, log) && (r == Done ==> LogOk(conn, plan, now, log))
    ensures |api.trace| >= |old(api.trace)| + |Settled(log)|
    ensures |api.trace| == |old(api.trace)| + |Settled(log)| ==>
      && api.s.core == old(api.s).core && api.s.workload == old(api.s).workload
      && (r == Done ==> log.noticed.zones == old(api.s).zones &&
                        api.s.zones == NotifyAll(log.noticed, Names(plan.zones), PICKED_UP, now).zones)
  {
    hide *;
    PushesAre(conn.spec, plan);
    var current, healthy, told, failed := AwaitHealth(api, conn, now);
    log := PassLog(Pushes(conn.spec, plan), told, healthy, failed, api.s, [], [], [], conn.status);
    if !healthy {
      FailureStaged(conn, plan, now, log);
      SettledIs(log);
      return Error, log;
    }
    var ok, seen, notes, active, final := Finish(api, current.value, conn.status, plan, now);
    log := log.(seen := seen, notes := notes, active := active, final := final);
    ReportsIf(plan, now, log);
    HealthyStaged(conn, plan, now, log);
    SettledIs(log);
    r := if ok then Done else Error;
  }

  lemma SettledIs(log: PassLog)
    ensures Settled(log) == log.told + (if log.healthy then [HealthChecked] else []) + log.failed + (log.notes + log.active)
  {}

  /** From "updating" to "active". Whatever comes after the splice, the spliced Corefile stands. */
  method Deliver(api: ApiServer, conn: DNSConnector, plan: Plan, ghost read: State, stamp: string, now: int)
    returns (r: Outcome, ghost log: PassLog)
    requires api.Valid() && MayWriteCorefile(api.p, read, api.s, conn.spec, plan, stamp)
    requires OwnConditions(conn.status.conditions)
    modifies api
    ensures api.Valid() && old(api.trace) <= api.trace && r != Requeue
    ensures Own(ConnectorController, api.trace) == Own(ConnectorController, old(api.trace)) + Delivered(log)
    ensures Staged(conn, plan, now, log) && (r == Done ==> LogOk(conn, plan, now, log))
    ensures |api.trace| >= |old(api.trace)| + |Delivered(log)|
    ensures |api.trace| == |old(api.trace)| + |Delivered(log)| ==>
      && (|log.pushed| == 2 ==> PushStands(api.s, conn.spec, plan))
      && (r == Done ==> log.noticed.zones == old(api.s).zones &&
                        api.s.zones == NotifyAll(log.noticed, Names(plan.zones), PICKED_UP, now).zones)
  {
    hide *;
    MayFacts(api.p, read, api.s, conn.spec, plan, stamp);
    PlanAnnotated(api.p, conn.spec, stamp, plan);
    PushesAre(conn.spec, plan);
    var ok;
    ghost var pushed;
    ok, pushed := Push(api, conn.spec, plan, read, stamp);
    ghost var put := api.s;
    if ok {
      r, log := Settle(api, conn, plan, now);
    } else {
      var reported;
      ghost var failed;
      reported, failed := Fail(api, conn, conn.status, "UpdateError", "could not update", now);
      FailureKeeps(conn, conn, "UpdateError", "could not update", now, failed);
      r, log := Error, PassLog(pushed, [], false, failed, api.s, [], [], [], conn.status);
      FailureStaged(conn, plan, now, log);
      SettledIs(log);
    }
    if api.s.core == put.core && api.s.workload == put.workload {
      StillStand(put, api.s, conn.spec, plan);
    }
    DeliveredIs(log);
  }

  lemma DeliveredIs(log: PassLog)
    ensures Delivered(log) == log.pushed + Settled(log)
  {}

  lemma ReportsIf(plan: Plan, now: int, log: PassLog)
    requires forall cm <- plan.items :: Annotated(cm)
    ensures Reports(plan, now, log) <==>
      && |log.seen| == |plan.zones| && log.notes == NotesFor(log.seen, PICKED_UP, now)
      && log.final.provisioned == Provisioned(plan.items) && IsReady(log.final.conditions)
    ensures (exists version: nat :: log.active == [WriteConnectorStatus(version, log.final)]) ==> ReportsFinal(log)
  {
    hide NotesFor, Annotated, Provisioned, IsReady;
  }

  /** A backup, or a status that is not ready and lists the same zones as before. */
  predicate NoNewZones(conn: DNSConnector, a: Action) {
    a.CreateBackup? || ReportsFailure(conn, a)
  }

  /**
   * A pass: what it computed, the states in which it read the Corefile and listed the zones, the
   * backup it made if there was none, and the rest.
   */
  datatype Serving = Serving(plan: Option<Plan>, read: State, listed: State, backup: seq<Action>, log: PassLog)

  /**
   * A pass that ends without error has attached the volumes, spliced the Corefile, found CoreDNS
   * healthy and told the zones, in this order, before it reported the zones of exactly those
   * ConfigMaps. One that fails stopped somewhere on this way and took nothing back.
   */
  ghost predicate Served(p: Params, conn: DNSConnector, stamp: string, now: int, r: Outcome, x: Serving) {
    && r != Requeue
    && (x.plan.None? ==> r == Error && Delivered(x.log) == [] && forall a <- x.backup :: NoNewZones(conn, a))
    && (x.plan.Some? ==>
          && PlanOk(p, conn.spec, stamp, x.plan.value) && x.read.core == Some(x.plan.value.core)
          && GoodZones(x.listed, conn.name, x.plan.value.zones)
          && (x.backup == [] || x.backup == [CreateBackup(x.plan.value.core.data)])
          && Staged(conn, x.plan.value, now, x.log) && (r == Done ==> LogOk(conn, x.plan.value, now, x.log)))
  }

  /** Both states belong to the run, between the beginning and the end of the pass. */
  ghost predicate ServedWithin(p: Params, start: State, before: seq<Action>, x: Serving, after: seq<Action>) {
    Passed(p, start, before, x.read, after) && Passed(p, start, before, x.listed, after)
  }

  /** Undisturbed, what was spliced stands, and the zone objects change as the notice loop says, or not at all. */
  ghost predicate LeftBy(s: State, conn: DNSConnector, now: int, r: Outcome, x: Serving, t: State) {
    x.plan.Some? ==>
      && (|x.log.pushed| == 2 ==> PushStands(t, conn.spec, x.plan.value))
      && (r == Done ==>
            && PassedOver(s, conn.name, x.plan.value.zones, x.log.noticed, now, t)
            && ZonesSay(t, x.plan.value.zones, true))
  }

  /** reconcileDNSConnector. */
  method ReconcileDNSConnector(api: ApiServer, conn: DNSConnector, stamp: string, now: int) returns (r: Outcome, ghost x: Serving)
    requires api.Valid() && ReadConn(api.p, api.s, conn)
    modifies api
    ensures api.Valid() && old(api.trace) <= api.trace
    ensures Own(ConnectorController, api.trace) == Own(ConnectorController, old(api.trace)) + x.backup + Delivered(x.log)
    ensures Served(api.p, conn, stamp, now, r, x)
    ensures x.plan.Some? ==> ServedWithin(api.p, api.start, old(api.trace), x, api.trace)
    ensures |api.trace| >= |old(api.trace)| + |x.backup + Delivered(x.log)|
    ensures |api.trace| == |old(api.trace)| + |x.backup + Delivered(x.log)| ==> LeftBy(old(api.s), conn, now, r, x, api.s)
  {
    hide *;
    api.Facts();
    ReadConnFacts(api.p, api.s, conn);
    ghost var begun, start := api.s, api.trace;
    var plan, core;
    ghost var read, listed, backup, log;
    log := PassLog([], [], false, [], api.s, [], [], [], conn.status);
    DeliveredIs(log);
    SettledIs(log);
    plan, core, read, listed, backup := Prepare(api, conn, stamp, now);
    x := Serving(plan, read, listed, backup, log);
    if plan.None? {
      FailedOnly(conn, core, backup);
      NotServed(api.p, conn, stamp, now, x, begun, api.s);
      return Error, x;
    }
    ghost var half := api.trace;
    MayFacts(api.p, read, api.s, conn.spec, plan.value, stamp);
    r, log := Deliver(api, conn, plan.value, read, stamp, now);
    x := x.(log := log);
    PassedWithin(api.p, api.start, start, start, read, half, api.trace);
    PassedWithin(api.p, api.start, start, start, listed, half, api.trace);
    IsWithin(api.p, api.start, start, x, api.trace);
    ServedIs(api.p, conn, stamp, now, r, x);
    if |api.trace| == |start| + |x.backup + Delivered(x.log)| {
      GoodElsewhere(listed, begun, conn.name, plan.value.zones);
      LeftIs(api.p, begun, conn, now, r, x, api.s);
    }
  }

  lemma NotServed(p: Params, conn: DNSConnector, stamp: string, now: int, x: Serving, s: State, t: State)
    requires x.plan.None? && Delivered(x.log) == [] && forall a <- x.backup :: NoNewZones(conn, a)
    ensures Served(p, conn, stamp, now, Error, x) && LeftBy(s, conn, now, Error, x, t)
  {
    hide Delivered, NoNewZones;
  }

  /**
   * Ready is earned: a ready status among the writes of a pass, failed or not, is its last write,
   * lists the zones of its plan after all of them were told, and comes after both pushes and a
   * health check that succeeded.
   */
  lemma ReadyOnlyAfterHealth(p: Params, conn: DNSConnector, stamp: string, now: int, r: Outcome, x: Serving, i: nat)
    requires Served(p, conn, stamp, now, r, x) && i < |x.backup + Delivered(x.log)|
    requires var a := (x.backup + Delivered(x.log))[i]; a.WriteConnectorStatus? && IsReady(a.connectorStatus.conditions)
    ensures i == |x.backup + Delivered(x.log)| - 1 && x.plan.Some?
    ensures (x.backup + Delivered(x.log))[i].connectorStatus == x.log.final && Reports(x.plan.value, now, x.log)
    ensures x.log.pushed == Pushes(conn.spec, x.plan.value) && x.log.healthy
    ensures x.backup + Delivered(x.log) ==
      x.backup + x.log.pushed + x.log.told + [HealthChecked] + x.log.notes + [(x.backup + Delivered(x.log))[i]]
  {
    hide PlanOk, GoodZones, Reports, Pushes, Staged, LogOk, IsReady, Settled, Delivered;
    var a := (x.backup + Delivered(x.log))[i];
    assert a in x.backup || a in Delivered(x.log);
    NotReadyYet(conn, x.backup);
    ReadyIsActive(conn, x.plan.value, now, x.log, a);
    ActiveStages(conn, x.plan.value, now, x.log);
    DeliveredIs(x.log);
    SettledIs(x.log);
    OnlyAtTheEnd(conn, x.plan.value, now, x.backup, x.log, i);
  }

  lemma NotReadyYet(conn: DNSConnector, acts: seq<Action>)
    ensures (forall a <- acts :: NoNewZones(conn, a)) || (|acts| == 1 && acts[0].CreateBackup?) ==>
      forall a <- acts :: a.WriteConnectorStatus? ==> !IsReady(a.connectorStatus.conditions)
  {
    hide IsReady;
  }

  lemma ReadyIsActive(conn: DNSConnector, plan: Plan, now: int, log: PassLog, a: Action)
    requires Staged(conn, plan, now, log) && a in Delivered(log)
    requires a.WriteConnectorStatus? && IsReady(a.connectorStatus.conditions)
    ensures a in log.active
  {
    hide Staged, IsReady;
    PushedAndTold(conn, plan, now, log);
    NotesAndActive(conn, plan, now, log);
    assert a in log.pushed || a in log.told || a == HealthChecked || a in log.failed || a in log.notes || a in log.active;
  }

  lemma ActiveStages(conn: DNSConnector, plan: Plan, now: int, log: PassLog)
    requires Staged(conn, plan, now, log) && log.active != []
    ensures Reports(plan, now, log) && |log.active| == 1 && log.active[0].WriteConnectorStatus?
    ensures log.active[0].connectorStatus == log.final
    ensures log.healthy && log.failed == [] && log.pushed == Pushes(conn.spec, plan)
  {
    hide Reports, NotesFor, SeenAgain, ToldUpdating, KeepsProvisioned, Updating;
    PushesAre(conn.spec, plan);
    assert |log.notes + log.active| > 0;
  }

  lemma OnlyAtTheEnd(conn: DNSConnector, plan: Plan, now: int, backup: seq<Action>, log: PassLog, i: nat)
    requires Staged(conn, plan, now, log) && |log.active| == 1 && log.healthy && log.failed == []
    requires forall a <- backup :: a.WriteConnectorStatus? ==> !IsReady(a.connectorStatus.conditions)
    requires i < |backup + Delivered(log)|
    requires var a := (backup + Delivered(log))[i]; a.WriteConnectorStatus? && IsReady(a.connectorStatus.conditions)
    ensures i == |backup + Delivered(log)| - 1
    ensures backup + Delivered(log) == backup + log.pushed + log.told + [HealthChecked] + log.notes + log.active
  {
    hide Staged, IsReady;
    PushedAndTold(conn, plan, now, log);
    NotesAndActive(conn, plan, now, log);
    var front := backup + log.pushed + log.told + [HealthChecked] + log.notes;
    assert backup + Delivered(log) == front + log.active;
    forall a <- front ensures a.WriteConnectorStatus? ==> !IsReady(a.connectorStatus.conditions) {
      assert a in backup || a in log.pushed || a in log.told || a == HealthChecked || a in log.notes;
    }
  }

  lemma IsWithin(p: Params, start: State, before: seq<Action>, x: Serving, after: seq<Action>)
    requires Passed(p, start, before, x.read, after) && Passed(p, start, before, x.listed, after)
    ensures ServedWithin(p, start, before, x, after)
  {
    hide Passed;
  }

  lemma WithinLonger(p: Params, start: State, before: seq<Action>, b: seq<Action>, x: Serving, after: seq<Action>)
    requires ServedWithin(p, start, b, x, after) && before <= b
    ensures ServedWithin(p, start, before, x, after)
  {
    hide Passed;
    PassedWithin(p, start, before, b, x.read, after, after);
    PassedWithin(p, start, before, b, x.listed, after, after);
  }

  lemma ServedIs(p: Params, conn: DNSConnector, stamp: string, now: int, r: Outcome, x: Serving)
    requires r != Requeue && x.plan.Some? && (x.backup == [] || x.backup == [CreateBackup(x.plan.value.core.data)])
    requires PlanOk(p, conn.spec, stamp, x.plan.value) && GoodZones(x.listed, conn.name, x.plan.value.zones)
    requires x.read.core == Some(x.plan.value.core)
    requires Staged(conn, x.plan.value, now, x.log) && (r == Done ==> LogOk(conn, x.plan.value, now, x.log))
    ensures Served(p, conn, stamp, now, r, x)
  {
    hide PlanOk, GoodZones, Staged, LogOk;
  }

  lemma LeftIs(p: Params, s: State, conn: DNSConnector, now: int, r: Outcome, x: Serving, t: State)
    requires x.plan.Some? && GoodZones(s, conn.name, x.plan.value.zones)
    requires |x.log.pushed| == 2 ==> PushStands(t, conn.spec, x.plan.value)
    requires r == Done ==> x.log.noticed.zones == s.zones
    requires r == Done ==> t.zones == NotifyAll(x.log.noticed, Names(x.plan.value.zones), PICKED_UP, now).zones
    requires Inv(p, s)
    ensures LeftBy(s, conn, now, r, x, t)
  {
    hide GoodZones, NotifyAll, PushStands, Inv, ZonesSay;
    if r == Done {
      ToldZonesSay(p, s, conn.name, x.plan.value.zones, x.log.noticed, PICKED_UP, now, t);
    }
  }

  lemma GoodElsewhere(s: State, t: State, connector: string, zones: seq<DNSZone>)
    requires GoodZones(s, connector, zones) && s.zones == t.zones
    ensures GoodZones(t, connector, zones)
  {}

  lemma FailedOnly(conn: DNSConnector, core: Option<ConfigMap>, acts: seq<Action>)
    requires FailedActs(conn, core, acts)
    ensures forall a <- acts :: NoNewZones(conn, a)
  {
    hide ReportsFailure;
  }

  // ---- deletion ----

  lemma RestorePrepared(p: Params, s: State)
    requires s.backup.Some? && ConnectorHeld(s)
    ensures Prepared(p, ConnectorController, s, RestoreCore) && ActorOf(RestoreCore) == ConnectorController
  {
    hide Inv, Fresh;
  }

  lemma Restored(p: Params, s: State)
    requires Inv(p, s) && Enabled(p, s, RestoreCore) && s.connector.Some? && s.connector.value.deleting
    ensures MayRelease(p, Apply(p, s, RestoreCore), ConnectorRef)
  {
    hide Inv;
  }

  lemma DeletingStays(p: Params, s: State, t: State)
    requires Rely(p, ConnectorController, s, t) && ConnectorHeld(s) && s.connector.value.deleting
    ensures ConnectorHeld(t) && t.connector.value.deleting && t.backup == s.backup
  {
    hide Fresh;
  }

  /** restoreOriginalCorefileCM: without a backup it fails, and writes nothing. */
  method RestoreOriginal(api: ApiServer) returns (ok: bool, ghost acts: seq<Action>)
    requires api.Valid() && ConnectorHeld(api.s) && api.s.connector.value.deleting
    modifies api
    ensures api.Valid() && old(api.trace) <= api.trace
    ensures Own(ConnectorController, api.trace) == Own(ConnectorController, old(api.trace)) + acts
    ensures acts == [] || acts == [RestoreCore]
    ensures |api.trace| >= |old(api.trace)| + |acts|
    ensures old(api.s).backup.None? ==> !ok && acts == []
    ensures ok ==> acts == [RestoreCore] && MayRelease(api.p, api.s, ConnectorRef)
  {
    hide Inv, Reachable, Run, Rely, Accepts, Enabled, Apply, Prepared, NamesApart, MayRelease;
    acts := [];
    ghost var before := api.s;
    var backup := api.GetBackup(ConnectorController);
    DeletingStays(api.p, before, api.s);
    if !backup.Found? {
      return false, acts;
    }
    ghost var found := api.s;
    var original := api.GetCore(ConnectorController);
    DeletingStays(api.p, found, api.s);
    if !original.Found? {
      return false, acts;
    }
    ghost var fetched, mid := api.s, api.s;
    RestorePrepared(api.p, fetched);
    ok, mid, acts := api.Write(ConnectorController, RestoreCore);
    DeletingStays(api.p, fetched, mid);
    if ok {
      Restored(api.p, mid);
    }
  }

  /** A removal: the zones as listed and as fetched again, and the writes of its three stages. */
  datatype Removal = Removal(
    good: seq<DNSZone>,
    seen: seq<DNSZone>,
    listed: State,
    restored: seq<Action>,
    letGo: seq<Action>,
    notes: seq<Action>)

  /**
   * Restore, let the connector go, tell the zones; each only after the one before it succeeded.
   * At the end the connector is gone, though there may be a new one.
   */
  ghost predicate Removed(s: State, conn: DNSConnector, now: int, r: Outcome, x: Removal) {
    && r != Requeue && x.restored <= [RestoreCore] && OneFinalizerWrite(x.letGo, ConnectorRef, false)
    && (x.letGo != [] ==> x.restored == [RestoreCore])
    && (x.notes != [] || r == Done ==> |x.letGo| == 1 && Gone(s, conn))
    && x.notes <= NotesFor(x.seen, REMOVED, now) && NotesSay(x.notes, false)
    && (r == Done ==>
          && GoodZones(x.listed, conn.name, x.good)
          && SeenAgain(x.good, x.seen) && |x.seen| == |x.good| && x.notes == NotesFor(x.seen, REMOVED, now))
  }

  predicate Gone(s: State, conn: DNSConnector) {
    s.connector.Some? ==> s.connector.value.uid != conn.uid
  }

  /** reconcileDelete: without a backup it writes nothing and fails. */
  method ReconcileDelete(api: ApiServer, conn: DNSConnector, now: int) returns (r: Outcome, ghost x: Removal)
    requires api.Valid() && ReadConn(api.p, api.s, conn) && conn.deleting
    modifies api
    ensures api.Valid() && old(api.trace) <= api.trace
    ensures var me := ConnectorController;
      Own(me, api.trace) == Own(me, old(api.trace)) + x.restored + x.letGo + x.notes
    ensures Removed(api.s, conn, now, r, x) && (r == Done ==> Passed(api.p, api.start, old(api.trace), x.listed, api.trace))
    ensures old(api.s).backup.None? ==> r == Error && x.restored + x.letGo + x.notes == []
    ensures |api.trace| >= |old(api.trace)| + |x.restored + x.letGo + x.notes|
    ensures r == Done && |api.trace| == |old(api.trace)| + |x.restored + x.letGo + x.notes| ==> ZonesSay(api.s, x.good, false)
  {
    hide Inv, Reachable, Run, Rely, NamesApart, ReadConn, ConnectorHeld, GoodZones, NotesFor, MayRelease, OneFinalizerWrite,
      SeenAgain, Own, AtMostOneWrite, Passed, Exists, Gone, NotifyAll, Names, ZonesSay;
    NoticesAre();
    ghost var read, start := api.s, api.trace;
    api.Facts();
    DeletingConn(api.p, read, conn);
    NoFinalizerWrite();
    NobodyNotified(read, [], REMOVED, now);
    var ok;
    ghost var mid, restored, letGo, notes;
    ok, restored := RestoreOriginal(api);
    if !ok {
      return Error, Removal([], [], read, restored, [], []);
    }
    KeeperOfConnector();
    ok, letGo, mid := RemoveFinalizer(api, ConnectorRef);
    if !ok {
      return Error, Removal([], [], read, restored, letGo, []);
    }
    ghost var released := api.trace;
    api.Facts();
    ConnectorGoneNow(api.p, api.start, start, released, conn);
    var fetched := FetchGoodZones(api, conn.name);
    if fetched.None? {
      return Error, Removal([], [], read, restored, letGo, []);
    }
    ghost var listed, half := api.s, api.trace;
    api.Facts();
    var seen;
    ok, seen, notes := NotifyGoodDNSZones(api, fetched.value, REMOVED, now);
    PassedAt(api.p, api.start, start, half, api.trace);
    api.Facts();
    StaysGone(api.p, api.start, released, api.trace, conn);
    if ok && |api.trace| == |half| + |notes| {
      ToldZonesSay(api.p, listed, conn.name, fetched.value, listed, REMOVED, now, api.s);
    }
    return if ok then Done else Error, Removal(fetched.value, seen, listed, restored, letGo, notes);
  }

  lemma ConnectorGoneNow(p: Params, start: State, before: seq<Action>, released: seq<Action>, conn: DNSConnector)
    requires before <= released && ReadConn(p, Run(p, start, before), conn)
    requires !Exists(p, Run(p, start, released), ConnectorRef)
    ensures Gone(Run(p, start, released), conn) && conn.uid < Run(p, start, released).next
  {
    hide Run, MapsOk, ZonesOk, RecordsOk, CoreOk;
    NextGrows(p, start, before, released);
  }

  lemma StaysGone(p: Params, start: State, released: seq<Action>, after: seq<Action>, conn: DNSConnector)
    requires released <= after && Gone(Run(p, start, released), conn) && conn.uid < Run(p, start, released).next
    ensures Gone(Run(p, start, after), conn)
  {
    hide Run;
    GoneForGood(p, start, released, after, conn.uid);
  }

  lemma DeletingConn(p: Params, s: State, conn: DNSConnector)
    requires ReadConn(p, s, conn) && conn.deleting
    ensures ConnectorHeld(s) && s.connector.value.deleting
  {
    hide Inv;
  }

  lemma NoFinalizerWrite()
    ensures OneFinalizerWrite([], ConnectorRef, false)
  {}

  lemma KeeperOfConnector()
    ensures Keeper(ConnectorRef) == ConnectorController
  {}

  /** Reconcile of the single connector: `read` is the connector as fetched. */
  method Reconcile(api: ApiServer, stamp: string, now: int)
    returns (r: Outcome, read: Option<DNSConnector>, ghost acts: seq<Action>,
             ghost serving: Option<Serving>, ghost removal: Option<Removal>)
    requires api.Valid()
    modifies api
    ensures api.Valid() && old(api.trace) <= api.trace
    ensures Own(ConnectorController, api.trace) == Own(ConnectorController, old(api.trace)) + acts
    ensures read.None? ==> r != Requeue && acts == []
    ensures read.Some? && !read.value.finalizer ==>
      && r != Done && OneFinalizerWrite(acts, ConnectorRef, true) && (r == Requeue ==> Carries(api.p, api.s, ConnectorRef))
    ensures read.Some? && read.value.finalizer && read.value.deleting ==>
      && removal.Some? && acts == removal.value.restored + removal.value.letGo + removal.value.notes
      && Removed(api.s, read.value, now, r, removal.value)
      && (r == Done ==> Passed(api.p, api.start, old(api.trace), removal.value.listed, api.trace))
      && (r == Done && |api.trace| == |old(api.trace)| + |acts| ==> ZonesSay(api.s, removal.value.good, false))
    ensures read.Some? && read.value.finalizer && !read.value.deleting ==>
      && serving.Some? && acts == serving.value.backup + Delivered(serving.value.log)
      && Served(api.p, read.value, stamp, now, r, serving.value)
      && (serving.value.plan.Some? ==> ServedWithin(api.p, api.start, old(api.trace), serving.value, api.trace))
      && (|api.trace| == |old(api.trace)| + |acts| ==> LeftBy(old(api.s), read.value, now, r, serving.value, api.s))
  {
    hide *;
    read, acts, serving, removal := None, [], None, None;
    ghost var begun, start := api.s, api.trace;
    var fetched := api.GetConnector(ConnectorController);
    if fetched.NotFound? {
      return Done, read, acts, serving, removal;
    }
    if fetched.Failed? {
      return Error, read, acts, serving, removal;
    }
    var conn := fetched.value;
    read := Some(conn);
    KeeperOfConnector();
    if !conn.finalizer {
      var ok;
      ghost var mid;
      ConnectorMayBeHeld(api.p, api.s);
      ok, acts, mid := AddFinalizer(api, ConnectorRef);
      return if ok then Requeue else Error, read, acts, serving, removal;
    }
    api.Facts();
    ConnRead(api.p, api.s, conn);
    ghost var half := api.trace;
    if conn.deleting {
      ghost var x;
      r, x := ReconcileDelete(api, conn, now);
      if r == Done {
        PassedWithin(api.p, api.start, start, half, x.listed, api.trace, api.trace);
      }
      removal, acts := Some(x), x.restored + x.letGo + x.notes;
    } else {
      ghost var x;
      r, x := ReconcileDNSConnector(api, conn, stamp, now);
      if x.plan.Some? {
        WithinLonger(api.p, api.start, start, half, x, api.trace);
      }
      serving, acts := Some(x), x.backup + Delivered(x.log);
    }
  }

  lemma ConnectorMayBeHeld(p: Params, s: State)
    ensures MayHold(p, s, ConnectorRef)
  {}

  lemma ConnRead(p: Params, s: State, conn: DNSConnector)
    requires Inv(p, s) && s.connector == Some(conn) && conn.finalizer
    ensures ReadConn(p, s, conn)
  {
    hide Inv;
  }
}
