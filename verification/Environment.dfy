/** What one controller may rely on while all the others, the users and the collector act. */
module Environment {
  import opened Objects
  import opened CorefileLaws
  import opened PodTemplate
  import opened ZoneFile
  import opened Cluster
  import opened Invariants

  /** Every object of t is the one of s or has a version that s had not handed out yet. */
  ghost predicate Fresh(s: State, t: State) {
    && s.next <= t.next
    && (forall n <- t.records :: (n in s.records && t.records[n] == s.records[n]) || t.records[n].version >= s.next)
    && (forall n <- t.zones :: (n in s.zones && t.zones[n] == s.zones[n]) || t.zones[n].version >= s.next)
    && (forall c <- t.maps :: (c in s.maps && t.maps[c] == s.maps[c]) || t.maps[c].version >= s.next)
    && (t.connector.Some? ==> t.connector == s.connector || t.connector.value.version >= s.next)
    && (t.core.Some? ==> t.core == s.core || t.core.value.version >= s.next)
    && (t.workload.Some? ==> t.workload == s.workload || t.workload.value.version >= s.next)
  }

  /** A record with the finalizer stays, and stays deleted. */
  predicate RecordStays(s: State, t: State, n: string) {
    n in s.records && s.records[n].finalizer ==>
      n in t.records && t.records[n].finalizer && (s.records[n].deleting ==> t.records[n].deleting)
  }

  /** So does a zone, as the same object. */
  predicate ZoneStays(s: State, t: State, n: string) {
    n in s.zones && s.zones[n].finalizer ==>
      n in t.zones && t.zones[n].finalizer && t.zones[n].uid == s.zones[n].uid && (s.zones[n].deleting ==> t.zones[n].deleting)
  }

  /** Nobody writes the ConfigMap c; it goes only if its zone is gone. */
  predicate MapStays(s: State, t: State, c: string) {
    && (c in t.maps ==> c in s.maps && t.maps[c] == s.maps[c])
    && (c in s.maps && OwnerAlive(s, s.maps[c]) && s.zones[s.maps[c].annotations["DNSZoneRef"]].finalizer ==> c in t.maps)
  }

  predicate ConnectorStays(s: State, t: State) {
    && (ConnectorHeld(s) ==>
          && ConnectorHeld(t) && t.connector.value.uid == s.connector.value.uid
          && (s.connector.value.deleting ==> t.connector.value.deleting))
    && t.backup == s.backup && s.userData <= t.userData && t.coreWritten == s.coreWritten
  }

  predicate Steady(p: Params, me: Actor, s: State, t: State) {
    match me
    case RecordController(n) => RecordStays(s, t, n)
    case ZoneController(n) => ZoneStays(s, t, n) && MapStays(s, t, MapName(p, n))
    case ConnectorController => ConnectorStays(s, t)
    case _ => true
  }

  ghost predicate Rely(p: Params, me: Actor, s: State, t: State) {
    Fresh(s, t) && Steady(p, me, s, t)
  }

  // ---- what each step touches: the rest of the state stays, versions are fresh ----

  ghost predicate OnlyRecords(s: State, t: State) {
    t == s.(records := t.records, next := t.next) && Fresh(s, t)
  }

  ghost predicate OnlyZones(s: State, t: State) {
    t == s.(zones := t.zones, next := t.next) && Fresh(s, t)
  }

  ghost predicate OnlyMaps(s: State, t: State) {
    t == s.(maps := t.maps, next := t.next) && Fresh(s, t)
  }

  ghost predicate OnlyConnector(s: State, t: State) {
    t == s.(connector := t.connector, next := t.next) && Fresh(s, t)
  }

  ghost predicate OnlyWorkload(s: State, t: State) {
    t == s.(workload := t.workload, next := t.next) && Fresh(s, t)
  }

  /** The CoreDNS ConfigMap, its backup, and the history. */
  ghost predicate OnlyCore(s: State, t: State) {
    && t.records == s.records && t.zones == s.zones && t.maps == s.maps && t.connector == s.connector
    && t.workload == s.workload && Fresh(s, t)
  }

  lemma RecordsPut(s: State, n: string, r: DNSRecord)
    ensures OnlyRecords(s, PutRecord(s, r))
    ensures OnlyRecords(s, RecordGone(s, n))
    ensures OnlyRecords(s, s)
  {}

  lemma ZonesPut(s: State, n: string, z: DNSZone)
    ensures OnlyZones(s, PutZone(s, z))
    ensures OnlyZones(s, ZoneGone(s, n))
    ensures OnlyZones(s, s)
  {}

  lemma MapsPut(s: State, c: string, cm: ConfigMap)
    ensures OnlyMaps(s, PutMap(s, c, cm))
    ensures OnlyMaps(s, MapCollected(s, c))
    ensures OnlyMaps(s, s)
  {}

  lemma CorePut(s: State, data: map<string, string>)
    ensures OnlyCore(s, PutCore(s, data))
    ensures OnlyCore(s, CoreRemoved(s))
    ensures OnlyCore(s, s)
  {}

  lemma ConnectorPut(s: State, c: DNSConnector)
    ensures OnlyConnector(s, PutConnector(s, c))
    ensures OnlyConnector(s, ConnectorGone(s))
    ensures OnlyConnector(s, s)
  {}

  lemma WorkloadPut(s: State, w: Template)
    ensures OnlyWorkload(s, PutWorkload(s, w))
    ensures OnlyWorkload(s, s)
  {}

  lemma WorkloadRemoved(s: State)
    ensures OnlyWorkload(s, WorkloadEdited(s, None))
  {
    hide PutWorkload;
  }

  predicate OnRecords(a: Action) {
    a.CreateRecord? || a.EditRecord? || a.DeleteRecord? || a.WriteRecordStatus? || (a.WriteFinalizer? && a.ref.RecordRef?)
  }

  predicate OnZones(a: Action) {
    a.CreateZone? || a.EditZone? || a.DeleteZone? || a.WriteZoneStatus? || (a.WriteFinalizer? && a.ref.ZoneRef?)
  }

  predicate OnMaps(a: Action) {
    a.CollectMap? || a.CreateZoneMap? || a.UpdateZoneMap? || (a.WriteFinalizer? && a.ref.MapRef?)
  }

  predicate OnConnector(a: Action) {
    || a.CreateConnector? || a.EditConnector? || a.DeleteConnector? || a.WriteConnectorStatus?
    || (a.WriteFinalizer? && a.ref.ConnectorRef?)
  }

  predicate OnCore(a: Action) {
    a.EditCore? || a.RemoveCore? || a.CreateBackup? || a.WriteCorefile? || a.RestoreCore?
  }

  ghost predicate Touches(s: State, a: Action, t: State) {
    if OnRecords(a) then OnlyRecords(s, t)
    else if OnZones(a) then OnlyZones(s, t)
    else if OnMaps(a) then OnlyMaps(s, t)
    else if OnConnector(a) then OnlyConnector(s, t)
    else if OnCore(a) then OnlyCore(s, t)
    else OnlyWorkload(s, t)
  }

  lemma RecordStepsTouch(s: State, n: string, r: RecordSpec, st: RecordStatus, present: bool)
    ensures OnlyRecords(s, RecordCreated(s, n, r)) && OnlyRecords(s, RecordEdited(s, n, r)) && OnlyRecords(s, RecordDeleted(s, n))
    ensures OnlyRecords(s, RecordStatusSet(s, n, st)) && OnlyRecords(s, RecordFinalizerSet(s, n, present))
  {
    assert OnlyRecords(s, RecordCreated(s, n, r)) by { hide PutRecord; }
    hide OnlyRecords, PutRecord, RecordGone;
    var blank := DNSRecord(n, s.next, 1, false, false, r, RecordStatus([], false, ""));
    RecordsPut(s, n, blank);
    if n in s.records {
      RecordsPut(s, n, s.records[n].(spec := r, generation := s.records[n].generation + 1));
      RecordsPut(s, n, s.records[n].(deleting := true));
      RecordsPut(s, n, s.records[n].(finalizer := present));
      RecordsPut(s, n, s.records[n].(status := st));
    }
  }

  lemma ZoneStepsTouch(s: State, n: string, z: ZoneSpec, st: ZoneStatus, present: bool)
    ensures OnlyZones(s, ZoneCreated(s, n, z)) && OnlyZones(s, ZoneEdited(s, n, z)) && OnlyZones(s, ZoneDeleted(s, n))
    ensures OnlyZones(s, ZoneStatusSet(s, n, st)) && OnlyZones(s, ZoneFinalizerSet(s, n, present))
  {
    assert OnlyZones(s, ZoneCreated(s, n, z)) by { hide PutZone; }
    hide OnlyZones, PutZone, ZoneGone;
    var blank := DNSZone(n, s.next, s.next, 1, false, false, z, st);
    ZonesPut(s, n, blank);
    if n in s.zones {
      ZonesPut(s, n, s.zones[n].(spec := z, generation := s.zones[n].generation + 1));
      ZonesPut(s, n, s.zones[n].(deleting := true));
      ZonesPut(s, n, s.zones[n].(finalizer := present));
      ZonesPut(s, n, s.zones[n].(status := st));
    }
  }

  lemma MapStepsTouch(p: Params, s: State, n: string, uid: nat, z: ZoneSpec, text: string, serial: string, c: string, present: bool)
    ensures OnlyMaps(s, ZoneMapWritten(p, s, n, uid, z, text, serial))
    ensures OnlyMaps(s, MapCollected(s, c)) && OnlyMaps(s, MapFinalizerSet(s, c, present))
  {
    hide OnlyMaps, PutMap, MapCollected, MapName, ZoneMap;
    MapsPut(s, MapName(p, n), ZoneMap(p, s.next, n, uid, z, text, serial));
    MapsPut(s, c, ZoneMap(p, s.next, n, uid, z, text, serial));
    if c in s.maps {
      MapsPut(s, c, s.maps[c].(finalizer := present));
    }
  }

  lemma HistoryIsElsewhere(s: State, t: State, users: set<map<string, string>>, written: bool)
    requires OnlyCore(s, t)
    ensures OnlyCore(s, t.(userData := users, coreWritten := written))
  {}

  lemma ConnectorStepsTouch(s: State, n: string, c: ConnectorSpec, st: ConnectorStatus, present: bool)
    ensures OnlyConnector(s, ConnectorCreated(s, n, c)) && OnlyConnector(s, ConnectorEdited(s, c))
    ensures OnlyConnector(s, ConnectorDeleted(s)) && OnlyConnector(s, ConnectorStatusSet(s, st))
    ensures OnlyConnector(s, ConnectorFinalizerSet(s, present))
  {
    assert OnlyConnector(s, ConnectorCreated(s, n, c)) by { hide PutConnector; }
    hide OnlyConnector, PutConnector, ConnectorGone;
    var blank := DNSConnector(n, s.next, s.next, 1, false, false, c, ConnectorStatus([], []));
    ConnectorPut(s, blank);
    if s.connector.Some? {
      ConnectorPut(s, s.connector.value.(spec := c, generation := s.connector.value.generation + 1));
      ConnectorPut(s, s.connector.value.(deleting := true));
      ConnectorPut(s, s.connector.value.(finalizer := present));
      ConnectorPut(s, s.connector.value.(status := st));
    }
  }

  lemma WorkloadStepsTouch(s: State, w: Option<Template>)
    ensures OnlyWorkload(s, WorkloadEdited(s, w))
  {
    hide OnlyWorkload, PutWorkload;
    WorkloadRemoved(s);
    WorkloadPut(s, if w.Some? then w.value else Template(map[], [], []));
  }

  lemma CoreStepsTouch(s: State, data: map<string, string>)
    ensures OnlyCore(s, CoreEdited(s, data)) && OnlyCore(s, CoreRemoved(s)) && OnlyCore(s, CoreRestored(s))
  {
    hide OnlyCore, PutCore, CoreRemoved;
    CorePut(s, data);
    HistoryIsElsewhere(s, PutCore(s, data), s.userData + {data}, PutCore(s, data).coreWritten);
    if s.backup.Some? {
      CorePut(s, s.backup.value.data);
      var t := PutCore(s, s.backup.value.data);
      HistoryIsElsewhere(s, t, t.userData, false);
    }
  }

  lemma CorefileStepTouches(s: State, c: ConnectorSpec, items: seq<ConfigMap>, order: seq<string>)
    ensures OnlyCore(s, CorefileWritten(s, c, items, order))
  {
    hide CorefileJustified, WrittenData, OnlyCore;
    CorePut(s, map[]);
    if s.core.Some? && CorefileJustified(s, c, items, order) {
      var t := PutCore(s, WrittenData(s, c, items, order));
      CorePut(s, WrittenData(s, c, items, order));
      HistoryIsElsewhere(s, t, t.userData, true);
    }
  }

  lemma BackupTouches(s: State, data: map<string, string>)
    ensures OnlyCore(s, PutBackup(s, data))
  {}

  /** Every step is confined to one kind of object and gives what it changes a fresh version. */
  lemma StepTouches(p: Params, s: State, a: Action)
    ensures Touches(s, a, Apply(p, s, a))
  {
    hide MapName, Fresh, OnlyRecords, OnlyZones, OnlyMaps, OnlyConnector, OnlyWorkload, OnlyCore, RecordCreated,
      RecordEdited, RecordDeleted, ZoneCreated, ZoneEdited, ZoneDeleted, ConnectorCreated, ConnectorEdited,
      ConnectorDeleted, CoreEdited, CoreRemoved, WorkloadEdited, MapCollected, RecordFinalizerSet, ZoneFinalizerSet,
      MapFinalizerSet, ConnectorFinalizerSet, RecordStatusSet, ZoneStatusSet, ConnectorStatusSet, ZoneMapWritten,
      PutBackup, PutWorkload, CorefileWritten, CoreRestored;
    match a {
      case CreateRecord(n, r) => RecordStepsTouch(s, n, r, RecordStatus([], false, ""), true);
      case EditRecord(n, r) => RecordStepsTouch(s, n, r, RecordStatus([], false, ""), true);
      case DeleteRecord(n) => RecordStepsTouch(s, n, RecordSpec("", "", "", "", ""), RecordStatus([], false, ""), true);
      case WriteRecordStatus(_, n, _, st) => RecordStepsTouch(s, n, RecordSpec("", "", "", "", ""), st, true);
      case WriteFinalizer(RecordRef(n), _, present) =>
        RecordStepsTouch(s, n, RecordSpec("", "", "", "", ""), RecordStatus([], false, ""), present);
      case CreateZone(n, z) => ZoneStepsTouch(s, n, z, NoStatus(), true);
      case EditZone(n, z) => ZoneStepsTouch(s, n, z, NoStatus(), true);
      case DeleteZone(n) => ZoneStepsTouch(s, n, NoSpec(), NoStatus(), true);
      case WriteZoneStatus(_, n, _, st) => ZoneStepsTouch(s, n, NoSpec(), st, true);
      case WriteFinalizer(ZoneRef(n), _, present) => ZoneStepsTouch(s, n, NoSpec(), NoStatus(), present);
      case CollectMap(c) => MapStepsTouch(p, s, "", 0, NoSpec(), "", "", c, true);
      case WriteFinalizer(MapRef(n), _, present) => MapStepsTouch(p, s, "", 0, NoSpec(), "", "", MapName(p, n), present);
      case CreateZoneMap(n, uid, z, text, serial) => MapStepsTouch(p, s, n, uid, z, text, serial, "", true);
      case UpdateZoneMap(n, uid, z, text, serial) => MapStepsTouch(p, s, n, uid, z, text, serial, "", true);
      case _ => CoreStepTouches(p, s, a);
    }
  }

  lemma CoreStepTouches(p: Params, s: State, a: Action)
    requires !OnRecords(a) && !OnZones(a) && !OnMaps(a)
    ensures Touches(s, a, Apply(p, s, a))
  {
    hide MapName, Fresh, OnlyConnector, OnlyWorkload, OnlyCore, RecordCreated, RecordEdited, RecordDeleted,
      ZoneCreated, ZoneEdited, ZoneDeleted, ConnectorCreated, ConnectorEdited, ConnectorDeleted, CoreEdited,
      CoreRemoved, WorkloadEdited, MapCollected, RecordFinalizerSet, ZoneFinalizerSet, MapFinalizerSet,
      ConnectorFinalizerSet, RecordStatusSet, ZoneStatusSet, ConnectorStatusSet, ZoneMapWritten, PutBackup,
      PutWorkload, CorefileWritten, CoreRestored;
    var none, blank := ConnectorStatus([], []), ConnectorSpec("", "", []);
    match a {
      case CreateConnector(n, c) => ConnectorStepsTouch(s, n, c, none, true);
      case EditConnector(c) => ConnectorStepsTouch(s, "", c, none, true);
      case DeleteConnector => ConnectorStepsTouch(s, "", blank, none, true);
      case WriteConnectorStatus(_, st) => ConnectorStepsTouch(s, "", blank, st, true);
      case WriteFinalizer(ConnectorRef, _, present) => ConnectorStepsTouch(s, "", blank, none, present);
      case EditWorkload(w) => WorkloadStepsTouch(s, w);
      case WriteWorkload(_, t) => WorkloadPut(s, t);
      case HealthChecked => WorkloadPut(s, Template(map[], [], []));
      case EditCore(data) => CoreStepsTouch(s, data);
      case RemoveCore => CoreStepsTouch(s, map[]);
      case RestoreCore => CoreStepsTouch(s, map[]);
      case CreateBackup(data) => BackupTouches(s, data);
      case WriteCorefile(_, c, items, order) => CorefileStepTouches(s, c, items, order);
    }
  }

  function NoSpec(): ZoneSpec {
    ZoneSpec("", "", "", "", "", 0, 0, 0, 0, 0, "")
  }

  function NoStatus(): ZoneStatus {
    ZoneStatus([], "", 0, false, "", false)
  }

  // ---- what stays, over a step of another ----

  /** What a step leaves alone. */
  lemma SameElsewhere(p: Params, s: State, a: Action)
    ensures !OnRecords(a) ==> Apply(p, s, a).records == s.records
    ensures !OnZones(a) ==> Apply(p, s, a).zones == s.zones
    ensures !OnMaps(a) ==> Apply(p, s, a).maps == s.maps
    ensures !OnConnector(a) ==> Apply(p, s, a).connector == s.connector
    ensures !OnCore(a) ==> SameCore(s, Apply(p, s, a))
    ensures !a.WriteWorkload? && !a.EditWorkload? ==> Apply(p, s, a).workload == s.workload
  {
    StepTouches(p, s, a);
    if a.HealthChecked? {
      CheckChangesNothing(p, s);
    }
    hide Apply, Fresh;
  }

  lemma CheckChangesNothing(p: Params, s: State)
    ensures Apply(p, s, HealthChecked) == s
  {}

  predicate SameCore(s: State, t: State) {
    t.core == s.core && t.backup == s.backup && t.userData == s.userData && t.coreWritten == s.coreWritten
  }

  lemma SameStays(s: State, t: State, n: string, c: string)
    ensures t.records == s.records ==> RecordStays(s, t, n)
    ensures t.zones == s.zones ==> ZoneStays(s, t, n)
    ensures t.maps == s.maps ==> MapStays(s, t, c)
  {}

  lemma SameCoreStays(s: State, t: State)
    requires SameCore(s, t) && t.connector == s.connector
    ensures ConnectorStays(s, t)
  {}

  predicate OnZoneFinalizer(a: Action) {
    a.WriteFinalizer? && a.ref.ZoneRef?
  }

  /** Writes after which their author may go on relying on what it read: statuses, the workload, the health check. */
  predicate Harmless(a: Action) {
    a.WriteRecordStatus? || a.WriteZoneStatus? || a.WriteConnectorStatus? || a.WriteWorkload? || a.HealthChecked?
  }

  lemma RecordStaysStep(p: Params, s: State, a: Action, n: string)
    requires VersionsOk(s) && Enabled(p, s, a) && (ActorOf(a) != RecordController(n) || Harmless(a))
    ensures RecordStays(s, Apply(p, s, a), n)
  {
    hide Fresh, FinalizerJustified, RecordStatusJustified, ZoneStatusJustified, NoticeJustified, CorefileJustified,
      GoodDomain, SafeConnector, RecordCreated, RecordEdited, RecordDeleted, ZoneCreated, ZoneEdited, ZoneDeleted,
      ConnectorCreated, ConnectorEdited, ConnectorDeleted, CoreEdited, CoreRemoved, WorkloadEdited, MapCollected,
      RecordFinalizerSet, ZoneFinalizerSet, MapFinalizerSet, ConnectorFinalizerSet, RecordStatusSet, ZoneStatusSet,
      ConnectorStatusSet, ZoneMapWritten, PutBackup, PutWorkload, CorefileWritten, CoreRestored;
    hide Touches, OnlyRecords, OnlyZones, OnlyMaps, OnlyConnector, OnlyWorkload, OnlyCore, RecordStays, VersionsOk,
      SameCore;
    SameElsewhere(p, s, a);
    match a {
      case CreateRecord(m, r) => RecordKept(s, m, n, r, RecordStatus([], false, ""), true);
      case EditRecord(m, r) => RecordKept(s, m, n, r, RecordStatus([], false, ""), true);
      case DeleteRecord(m) => RecordKept(s, m, n, s.records[m].spec, RecordStatus([], false, ""), true);
      case WriteRecordStatus(_, m, _, st) => RecordKept(s, m, n, s.records[m].spec, st, true);
      case WriteFinalizer(RecordRef(m), _, present) =>
        RecordKept(s, m, n, RecordSpec("", "", "", "", ""), RecordStatus([], false, ""), present);
      case _ => SameStays(s, Apply(p, s, a), n, "");
    }
  }

  lemma RecordKept(s: State, m: string, n: string, r: RecordSpec, st: RecordStatus, present: bool)
    requires VersionsOk(s)
    ensures RecordStays(s, RecordEdited(s, m, r), n) && RecordStays(s, RecordDeleted(s, m), n)
    ensures RecordStays(s, RecordStatusSet(s, m, st), n)
    ensures m !in s.records ==> RecordStays(s, RecordCreated(s, m, r), n)
    ensures m != n ==> RecordStays(s, RecordFinalizerSet(s, m, present), n)
  {
    hide RecordStays, PutRecord, RecordGone, RecordCreated, VersionsOk;
    RecordCreatedStays(s, m, r, n);
    RecordGoneStays(s, m, n);
    if m in s.records {
      PutRecordStays(s, m, s.records[m].(spec := r, generation := s.records[m].generation + 1), n);
      PutRecordStays(s, m, s.records[m].(deleting := true), n);
      if m != n { PutRecordStays(s, m, s.records[m].(finalizer := present), n); }
      PutRecordStays(s, m, s.records[m].(status := st), n);
    }
  }

  lemma RecordCreatedStays(s: State, m: string, r: RecordSpec, n: string)
    ensures m !in s.records ==> RecordStays(s, RecordCreated(s, m, r), n)
  {}

  lemma RecordGoneStays(s: State, m: string, n: string)
    ensures m != n || m !in s.records || !s.records[m].finalizer ==> RecordStays(s, RecordGone(s, m), n)
    ensures RecordStays(s, s, n)
  {}

  lemma PutRecordStays(s: State, m: string, r: DNSRecord, n: string)
    requires VersionsOk(s) && m in s.records && r.name == s.records[m].name
    requires m == n && s.records[m].finalizer ==> r.finalizer && (s.records[m].deleting ==> r.deleting)
    ensures RecordStays(s, PutRecord(s, r), n)
  {}

  lemma ZoneStaysStep(p: Params, s: State, a: Action, n: string)
    requires VersionsOk(s) && Enabled(p, s, a) && (ActorOf(a) != ZoneController(n) || !OnZoneFinalizer(a))
    ensures ZoneStays(s, Apply(p, s, a), n)
  {
    hide Fresh, FinalizerJustified, RecordStatusJustified, ZoneStatusJustified, NoticeJustified, CorefileJustified,
      GoodDomain, SafeConnector, RecordCreated, RecordEdited, RecordDeleted, ZoneCreated, ZoneEdited, ZoneDeleted,
      ConnectorCreated, ConnectorEdited, ConnectorDeleted, CoreEdited, CoreRemoved, WorkloadEdited, MapCollected,
      RecordFinalizerSet, ZoneFinalizerSet, MapFinalizerSet, ConnectorFinalizerSet, RecordStatusSet, ZoneStatusSet,
      ConnectorStatusSet, ZoneMapWritten, PutBackup, PutWorkload, CorefileWritten, CoreRestored;
    hide Touches, OnlyRecords, OnlyZones, OnlyMaps, OnlyConnector, OnlyWorkload, OnlyCore, ZoneStays, VersionsOk,
      SameCore;
    SameElsewhere(p, s, a);
    match a {
      case CreateZone(m, z) => ZoneKept(s, m, n, z, NoStatus(), true);
      case EditZone(m, z) => ZoneKept(s, m, n, z, NoStatus(), true);
      case DeleteZone(m) => ZoneKept(s, m, n, NoSpec(), NoStatus(), true);
      case WriteZoneStatus(_, m, _, st) => ZoneKept(s, m, n, NoSpec(), st, true);
      case WriteFinalizer(ZoneRef(m), _, present) => ZoneKept(s, m, n, NoSpec(), NoStatus(), present);
      case _ => SameStays(s, Apply(p, s, a), n, "");
    }
  }

  lemma ZoneKept(s: State, m: string, n: string, z: ZoneSpec, st: ZoneStatus, present: bool)
    requires VersionsOk(s)
    ensures ZoneStays(s, ZoneEdited(s, m, z), n) && ZoneStays(s, ZoneDeleted(s, m), n)
    ensures ZoneStays(s, ZoneStatusSet(s, m, st), n)
    ensures m !in s.zones ==> ZoneStays(s, ZoneCreated(s, m, z), n)
    ensures m != n ==> ZoneStays(s, ZoneFinalizerSet(s, m, present), n)
  {
    hide ZoneStays, PutZone, ZoneGone, ZoneCreated, VersionsOk;
    ZoneCreatedStays(s, m, z, n);
    ZoneGoneStays(s, m, n);
    if m in s.zones {
      PutZoneStays(s, m, s.zones[m].(spec := z, generation := s.zones[m].generation + 1), n);
      PutZoneStays(s, m, s.zones[m].(deleting := true), n);
      if m != n { PutZoneStays(s, m, s.zones[m].(finalizer := present), n); }
      PutZoneStays(s, m, s.zones[m].(status := st), n);
    }
  }

  lemma ZoneCreatedStays(s: State, m: string, z: ZoneSpec, n: string)
    ensures m !in s.zones ==> ZoneStays(s, ZoneCreated(s, m, z), n)
  {}

  lemma ZoneGoneStays(s: State, m: string, n: string)
    ensures m != n || m !in s.zones || !s.zones[m].finalizer ==> ZoneStays(s, ZoneGone(s, m), n)
    ensures ZoneStays(s, s, n)
  {}

  lemma PutZoneStays(s: State, m: string, z: DNSZone, n: string)
    requires VersionsOk(s) && m in s.zones && z.name == s.zones[m].name && z.uid == s.zones[m].uid
    requires m == n && s.zones[m].finalizer ==> z.finalizer && (s.zones[m].deleting ==> z.deleting)
    ensures ZoneStays(s, PutZone(s, z), n)
  {}

  lemma MapStaysStep(p: Params, s: State, a: Action, n: string)
    requires NamesApart(p) && Enabled(p, s, a) && (ActorOf(a) != ZoneController(n) || !OnMaps(a))
    ensures MapStays(s, Apply(p, s, a), MapName(p, n))
  {
    hide Fresh, OwnerAlive, MapName, FinalizerJustified, RecordStatusJustified, ZoneStatusJustified,
      NoticeJustified, CorefileJustified, GoodDomain, SafeConnector, ConstructZoneFile, RecordCreated, RecordEdited,
      RecordDeleted, ZoneCreated, ZoneEdited, ZoneDeleted, ConnectorCreated, ConnectorEdited, ConnectorDeleted,
      CoreEdited, CoreRemoved, WorkloadEdited, MapCollected, RecordFinalizerSet, ZoneFinalizerSet, MapFinalizerSet,
      ConnectorFinalizerSet, RecordStatusSet, ZoneStatusSet, ConnectorStatusSet, ZoneMapWritten, PutBackup,
      PutWorkload, CorefileWritten, CoreRestored;
    hide Touches, OnlyRecords, OnlyZones, OnlyMaps, OnlyConnector, OnlyWorkload, OnlyCore, MapStays, NamesApart,
      SameCore;
    SameElsewhere(p, s, a);
    match a {
      case CreateZoneMap(m, uid, z, text, serial) => OtherMapKept(p, s, m, n, uid, z, text, serial, true);
      case UpdateZoneMap(m, uid, z, text, serial) => OtherMapKept(p, s, m, n, uid, z, text, serial, true);
      case WriteFinalizer(MapRef(m), _, present) => OtherMapKept(p, s, m, n, 0, NoSpec(), "", "", present);
      case CollectMap(c) => CollectedMap(s, c, MapName(p, n));
      case _ => SameStays(s, Apply(p, s, a), n, MapName(p, n));
    }
  }

  lemma OtherMapKept(p: Params, s: State, m: string, n: string, uid: nat, z: ZoneSpec, text: string, serial: string, present: bool)
    requires NamesApart(p) && m != n
    ensures MapStays(s, ZoneMapWritten(p, s, m, uid, z, text, serial), MapName(p, n))
    ensures MapStays(s, MapFinalizerSet(s, MapName(p, m), present), MapName(p, n))
  {
    hide OwnerAlive, MapName, ZoneMap;
    assert MapName(p, m) != MapName(p, n);
  }

  lemma CollectedMap(s: State, c: string, d: string)
    requires c in s.maps && !OwnerAlive(s, s.maps[c])
    ensures MapStays(s, MapCollected(s, c), d)
  {}

  lemma ConnectorStaysStep(p: Params, s: State, a: Action)
    requires Enabled(p, s, a) && (ActorOf(a) != ConnectorController || Harmless(a))
    ensures ConnectorStays(s, Apply(p, s, a))
  {
    hide Fresh, CorefileJustified, ZoneStatusJustified, FinalizerJustified, RecordCreated, RecordEdited,
      RecordDeleted, ZoneCreated, ZoneEdited, ZoneDeleted, ConnectorCreated, ConnectorEdited, ConnectorDeleted,
      CoreEdited, CoreRemoved, WorkloadEdited, MapCollected, RecordFinalizerSet, ZoneFinalizerSet, MapFinalizerSet,
      ConnectorFinalizerSet, RecordStatusSet, ZoneStatusSet, ConnectorStatusSet, ZoneMapWritten, PutBackup,
      PutWorkload, CorefileWritten, CoreRestored;
    hide Touches, OnlyRecords, OnlyZones, OnlyMaps, OnlyConnector, OnlyWorkload, OnlyCore, ConnectorStays, SameCore;
    SameElsewhere(p, s, a);
    match a {
      case CreateConnector(n, c) => ConnectorKept(s, n, c);
      case EditConnector(c) => ConnectorKept(s, "", c);
      case DeleteConnector => ConnectorKept(s, "", s.connector.value.spec);
      case WriteConnectorStatus(_, st) => ConnectorStatusKept(s, st);
      case EditCore(data) => CoreKept(s, data);
      case RemoveCore => CoreKept(s, map[]);
      case _ => SameCoreStays(s, Apply(p, s, a));
    }
  }

  lemma ConnectorKept(s: State, n: string, c: ConnectorSpec)
    ensures ConnectorStays(s, ConnectorEdited(s, c)) && ConnectorStays(s, ConnectorDeleted(s))
    ensures s.connector.None? ==> ConnectorStays(s, ConnectorCreated(s, n, c))
  {}

  lemma ConnectorStatusKept(s: State, st: ConnectorStatus)
    ensures ConnectorStays(s, ConnectorStatusSet(s, st))
  {}

  lemma CoreKept(s: State, data: map<string, string>)
    ensures ConnectorStays(s, CoreEdited(s, data)) && ConnectorStays(s, CoreRemoved(s))
  {}

  lemma RelyStep(p: Params, me: Actor, s: State, a: Action)
    requires Inv(p, s) && NamesApart(p) && Enabled(p, s, a) && (ActorOf(a) != me || Harmless(a))
    ensures Rely(p, me, s, Apply(p, s, a))
  {
    hide Apply, Enabled, MapsOk, ZonesOk, RecordsOk, CoreOk, VersionsOk, RecordStays, ZoneStays, MapStays,
      ConnectorStays, MapName, Fresh;
    StepTouches(p, s, a);
    match me {
      case RecordController(n) => RecordStaysStep(p, s, a, n);
      case ZoneController(n) =>
        ZoneStaysStep(p, s, a, n);
        MapStaysStep(p, s, a, n);
      case ConnectorController => ConnectorStaysStep(p, s, a);
      case _ =>
    }
  }

  lemma RelyNothing(p: Params, me: Actor, s: State)
    ensures Rely(p, me, s, s)
  {
    hide MapName, OwnerAlive;
  }

  lemma FreshTwice(s: State, t: State, u: State)
    requires VersionsOk(s) && Fresh(s, t) && Fresh(t, u)
    ensures Fresh(s, u)
  {}

  lemma SteadyTwice(p: Params, me: Actor, s: State, t: State, u: State)
    requires NamesApart(p) && MapsOk(p, s) && Steady(p, me, s, t) && Steady(p, me, t, u)
    ensures Steady(p, me, s, u)
  {
    hide MapName, SelfConsistent;
    if me.ZoneController? && MapName(p, me.name) in s.maps {
      ConsistentAt(p, s, MapName(p, me.name));
      ConsistentName(p, MapName(p, me.name), s.maps[MapName(p, me.name)]);
    }
  }

  /** Two stretches in a row are one. */
  lemma RelyTwice(p: Params, me: Actor, s: State, t: State, u: State)
    requires NamesApart(p) && Inv(p, s) && Rely(p, me, s, t) && Rely(p, me, t, u)
    ensures Rely(p, me, s, u)
  {
    hide Fresh, Steady;
    FreshTwice(s, t, u);
    SteadyTwice(p, me, s, t, u);
  }

  // ---- an object with the version that was read is the object that was read ----

  lemma SameRecord(s: State, t: State, n: string)
    requires VersionsOk(s) && Fresh(s, t) && n in s.records && n in t.records && t.records[n].version == s.records[n].version
    ensures t.records[n] == s.records[n]
  {}

  lemma SameZone(s: State, t: State, n: string)
    requires VersionsOk(s) && Fresh(s, t) && n in s.zones && n in t.zones && t.zones[n].version == s.zones[n].version
    ensures t.zones[n] == s.zones[n]
  {}
}
