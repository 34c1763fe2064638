/**
 * The API server's state and the atomic steps that change it: what users do, what the garbage
 * collector does, and every write of the three controllers with what its author knows by then.
 */
module Cluster {
  import opened Objects
  import opened Corefile
  import opened CorefileLaws
  import opened PodTemplate
  import opened ZoneFile

  /** Fixed for a run: the zone parser behind validateRecords, and the CMPrefix of each zone. */
  datatype Params = Params(validate: string -> bool, prefix: string -> string)

  /** What admission asks of a zone: the patterns of the custom resource, and a usable domain. */
  predicate Admitted(z: ZoneSpec) {
    && GoodDomain(z.domain) && '\n' !in z.host && '\n' !in z.email
    && (z.kind == "A" || z.kind == "AAAA")
  }

  function MapName(p: Params, zone: string): string {
    p.prefix(zone) + zone
  }

  /** No two zones share a ConfigMap name. */
  ghost predicate NamesApart(p: Params) {
    forall a: string, b: string :: MapName(p, a) == MapName(p, b) ==> a == b
  }

  /** The Deployment, StatefulSet or DaemonSet that runs CoreDNS. */
  datatype Workload = Workload(version: nat, template: Template)

  datatype State = State(
    next: nat,
    records: map<string, DNSRecord>,
    zones: map<string, DNSZone>,
    maps: map<string, ConfigMap>,
    connector: Option<DNSConnector>,
    core: Option<ConfigMap>,
    backup: Option<ConfigMap>,
    workload: Option<Workload>,
    // History: what users put into the CoreDNS ConfigMap, and whether the operator has written it
    // since it last restored it.
    userData: set<map<string, string>>,
    coreWritten: bool)

  datatype Actor = User | Collector | RecordController(name: string) | ZoneController(name: string) | ConnectorController

  datatype Ref = RecordRef(name: string) | ZoneRef(name: string) | MapRef(name: string) | ConnectorRef

  datatype Action =
    | CreateRecord(name: string, record: RecordSpec)
    | EditRecord(name: string, record: RecordSpec)
    | DeleteRecord(name: string)
    | CreateZone(name: string, zone: ZoneSpec)
    | EditZone(name: string, zone: ZoneSpec)
    | DeleteZone(name: string)
    | CreateConnector(name: string, conn: ConnectorSpec)
    | EditConnector(conn: ConnectorSpec)
    | DeleteConnector
    | EditCore(data: map<string, string>)
    | RemoveCore
    | EditWorkload(workload: Option<Template>)
    | CollectMap(map_: string)
    | WriteFinalizer(ref: Ref, version: nat, present: bool)
    | WriteRecordStatus(author: Actor, name: string, version: nat, recordStatus: RecordStatus)
    | WriteZoneStatus(author: Actor, name: string, version: nat, zoneStatus: ZoneStatus)
    | CreateZoneMap(name: string, uid: nat, zone: ZoneSpec, text: string, serial: string)
    | UpdateZoneMap(name: string, uid: nat, zone: ZoneSpec, text: string, serial: string)
    | CreateBackup(data: map<string, string>)
    | WriteWorkload(version: nat, template: Template)
    | WriteCorefile(version: nat, conn: ConnectorSpec, items: seq<ConfigMap>, order: seq<string>)
    | HealthChecked
    | WriteConnectorStatus(version: nat, connectorStatus: ConnectorStatus)
    | RestoreCore

  function ActorOf(a: Action): Actor {
    match a
    case CollectMap(_) => Collector
    case WriteFinalizer(RecordRef(n), _, _) => RecordController(n)
    case WriteFinalizer(ZoneRef(n), _, _) => ZoneController(n)
    case WriteFinalizer(MapRef(n), _, _) => ZoneController(n)
    case WriteFinalizer(ConnectorRef, _, _) => ConnectorController
    case WriteRecordStatus(author, _, _, _) => author
    case WriteZoneStatus(author, _, _, _) => author
    case CreateZoneMap(n, _, _, _, _) => ZoneController(n)
    case UpdateZoneMap(n, _, _, _, _) => ZoneController(n)
    case CreateBackup(_) => ConnectorController
    case WriteWorkload(_, _) => ConnectorController
    case WriteCorefile(_, _, _, _) => ConnectorController
    case HealthChecked => ConnectorController
    case WriteConnectorStatus(_, _) => ConnectorController
    case RestoreCore => ConnectorController
    case _ => User
  }

  // ---- what the objects say ----

  /** The zone a ConfigMap belongs to is still there, and is the same object. */
  predicate OwnerAlive(s: State, cm: ConfigMap) {
    && "DNSZoneRef" in cm.annotations
    && cm.annotations["DNSZoneRef"] in s.zones
    && s.zones[cm.annotations["DNSZoneRef"]].uid == cm.owner
  }

  /** Zone n is the object with this uid and carries the operator's finalizer. */
  predicate ZoneHeld(s: State, n: string, uid: nat) {
    n in s.zones && s.zones[n].uid == uid && s.zones[n].finalizer
  }

  predicate ConnectorHeld(s: State) {
    s.connector.Some? && s.connector.value.finalizer
  }

  /** constructZoneConfigMap. */
  function ZoneMap(p: Params, version: nat, n: string, uid: nat, z: ZoneSpec, text: string, serial: string): ConfigMap {
    ConfigMap(version, MapName(p, n), uid, false,
      map["SerialNumber" := serial, "DomainName" := z.domain, "DNSZoneRef" := n],
      ZoneData(z, text, serial))
  }

  // ---- which writes their authors can justify ----

  /** The controllers set a single condition type. */
  predicate OneReady(conditions: seq<Condition>) {
    |conditions| == 1 && conditions[0].kind == READY
  }

  /** So an object that one of them reports on has no other, or none yet. */
  predicate OwnConditions(conditions: seq<Condition>) {
    conditions == [] || OneReady(conditions)
  }

  /** The one condition says that the object is ready, or not, in this generation of its spec. */
  predicate Says(conditions: seq<Condition>, ready: bool, generation: nat) {
    && |conditions| == 1 && conditions[0].kind == "Ready"
    && conditions[0].status == ready && conditions[0].generation == generation
  }

  /** Setting the condition makes it say so; its time moves exactly when the answer changes. */
  lemma SetSays(conditions: seq<Condition>, c: Condition)
    requires OwnConditions(conditions) && c.kind == READY
    ensures OneReady(SetStatusCondition(conditions, c)) && Says(SetStatusCondition(conditions, c), c.status, c.generation)
    ensures SetStatusCondition(conditions, c)[0].since ==
      if conditions != [] && conditions[0].status == c.status then conditions[0].since else c.since
  {}

  lemma SaysReady(conditions: seq<Condition>, ready: bool, generation: nat)
    requires Says(conditions, ready, generation)
    ensures IsReady(conditions) <==> ready
  {
    assert conditions == [conditions[0]];
  }

  /** After a failure: only the condition and, downwards, validationPassed change. */
  predicate FailureStatus(was: ZoneStatus, st: ZoneStatus) {
    && st.(conditions := was.conditions, validationPassed := was.validationPassed) == was
    && (st.validationPassed ==> was.validationPassed)
  }

  /** After the ConfigMap was written: it exists, belongs to the zone and carries the serial of the status. */
  predicate WrittenStatus(p: Params, s: State, n: string, st: ZoneStatus)
    requires n in s.zones
  {
    && st.checkpoint && st.validationPassed && st.zoneConfigmap == MapName(p, n)
    && MapName(p, n) in s.maps && ZoneHeld(s, n, s.maps[MapName(p, n)].owner)
    && s.maps[MapName(p, n)].annotations ==
         map["SerialNumber" := st.currentZoneSerial, "DomainName" := s.zones[n].spec.domain, "DNSZoneRef" := n]
  }

  /** The status writes of the zone controller. */
  predicate ZoneStatusJustified(p: Params, s: State, n: string, st: ZoneStatus)
    requires n in s.zones
  {
    && OneReady(st.conditions) && !IsReady(st.conditions)
    && (FailureStatus(s.zones[n].status, st) || WrittenStatus(p, s, n, st))
  }

  /** The connector only changes the condition, and calls only a validated zone ready. */
  predicate NoticeJustified(was: ZoneStatus, st: ZoneStatus) {
    st.(conditions := was.conditions) == was && OneReady(st.conditions) && (IsReady(st.conditions) ==> was.validationPassed)
  }

  predicate RecordStatusJustified(p: Params, author: Actor, r: DNSRecord, st: RecordStatus) {
    && OneReady(st.conditions)
    && match author
       case RecordController(n) =>
         && n == r.name && st.generatedRecord == ConstructRecord(r.spec)
         && st.validationPassed == p.validate(st.generatedRecord)
       case ZoneController(_) => st.(conditions := r.status.conditions) == r.status
       case _ => false
  }

  predicate CorefileJustified(s: State, conn: ConnectorSpec, items: seq<ConfigMap>, order: seq<string>)
    requires s.core.Some?
  {
    && s.backup.Some? && ConnectorHeld(s) && SafeConnector(conn)
    && conn.corefileKey in s.core.value.data
    && (forall cm <- items :: ZoneEntryOk(cm))
    && (forall d <- Domains(items) :: GoodDomain(d))
    && IsOrderOf(order, ScanText(s.core.value.data[conn.corefileKey], Blocks(conn, Domains(items))).blocks.Keys)
  }

  /** The ConfigMap of this very zone still carries the operator's finalizer. */
  predicate MapHeldFor(p: Params, s: State, n: string, uid: nat) {
    MapName(p, n) in s.maps && s.maps[MapName(p, n)].owner == uid && s.maps[MapName(p, n)].finalizer
  }

  predicate FinalizerJustified(p: Params, s: State, ref: Ref, version: nat, present: bool) {
    match ref
    case RecordRef(n) =>
      n in s.records && s.records[n].version == version && (if present then !s.records[n].deleting else s.records[n].deleting)
    case ZoneRef(n) =>
      && n in s.zones && s.zones[n].version == version
      && (if present then !s.zones[n].deleting else s.zones[n].deleting && !MapHeldFor(p, s, n, s.zones[n].uid))
    case MapRef(n) =>
      && MapName(p, n) in s.maps && s.maps[MapName(p, n)].version == version
      && (present ==> ZoneHeld(s, n, s.maps[MapName(p, n)].owner))
    case ConnectorRef =>
      && s.connector.Some? && s.connector.value.version == version
      && (if present then !s.connector.value.deleting else s.connector.value.deleting && s.backup.Some? && !s.coreWritten)
  }

  /**
   * What may happen in state s. For a controller's write this is what its author has read and
   * checked by then; that the code only ever performs such writes is proved with the controllers.
   * For users it is what they are assumed to respect.
   */
  predicate Enabled(p: Params, s: State, a: Action) {
    match a
    case CreateRecord(n, _) => n !in s.records
    case EditRecord(n, _) => n in s.records
    case DeleteRecord(n) => n in s.records
    case CreateZone(n, z) => n !in s.zones && Admitted(z)
    case EditZone(n, z) => n in s.zones && Admitted(z)
    case DeleteZone(n) => n in s.zones
    case CreateConnector(_, c) => s.connector.None? && SafeConnector(c)
    case EditConnector(c) => s.connector.Some? && SafeConnector(c)
    case DeleteConnector => s.connector.Some?
    case EditCore(_) => true
    case RemoveCore => s.core.Some?
    case EditWorkload(t) => t.Some? ==> |t.value.containers| > 0
    case CollectMap(c) => c in s.maps && !OwnerAlive(s, s.maps[c]) && !s.maps[c].finalizer
    case WriteFinalizer(ref, version, present) => FinalizerJustified(p, s, ref, version, present)
    case WriteRecordStatus(author, n, version, st) =>
      n in s.records && s.records[n].version == version && RecordStatusJustified(p, author, s.records[n], st)
    case WriteZoneStatus(author, n, version, st) =>
      && n in s.zones && s.zones[n].version == version
      && (match author
          case ZoneController(m) => m == n && ZoneStatusJustified(p, s, n, st)
          case ConnectorController => NoticeJustified(s.zones[n].status, st)
          case _ => false)
    case CreateZoneMap(n, uid, z, text, serial) =>
      MapName(p, n) !in s.maps && ZoneHeld(s, n, uid) && Admitted(z) && '\n' !in serial &&
      p.validate(ConstructZoneFile(z, text, serial))
    case UpdateZoneMap(n, uid, z, text, serial) =>
      MapName(p, n) in s.maps && ZoneHeld(s, n, uid) && Admitted(z) && '\n' !in serial &&
      p.validate(ConstructZoneFile(z, text, serial))
    case CreateBackup(data) => s.backup.None? && ConnectorHeld(s) && data in s.userData
    case WriteWorkload(version, t) => s.workload.Some? && s.workload.value.version == version && |t.containers| > 0
    case WriteCorefile(version, c, items, order) =>
      s.core.Some? && s.core.value.version == version && CorefileJustified(s, c, items, order)
    case HealthChecked => true
    case WriteConnectorStatus(version, st) =>
      s.connector.Some? && s.connector.value.version == version && OneReady(st.conditions)
    case RestoreCore => s.core.Some? && s.backup.Some? && ConnectorHeld(s)
  }

  // ---- their effects ----

  /** A changed object gets a fresh resource version; an unchanged one keeps its own. */
  function PutZone(s: State, z: DNSZone): State {
    if z.name in s.zones && s.zones[z.name] == z then s
    else s.(zones := s.zones[z.name := z.(version := s.next)], next := s.next + 1)
  }

  function PutRecord(s: State, r: DNSRecord): State {
    if r.name in s.records && s.records[r.name] == r then s
    else s.(records := s.records[r.name := r.(version := s.next)], next := s.next + 1)
  }

  function PutConnector(s: State, c: DNSConnector): State {
    if s.connector == Some(c) then s
    else s.(connector := Some(c.(version := s.next)), next := s.next + 1)
  }

  function PutMap(s: State, name: string, cm: ConfigMap): State {
    if name in s.maps && s.maps[name] == cm.(version := s.maps[name].version) then s
    else s.(maps := s.maps[name := cm.(version := s.next)], next := s.next + 1)
  }

  function PutCore(s: State, data: map<string, string>): State {
    if s.core.Some? && s.core.value.data == data then s
    else
      var core := if s.core.Some? then s.core.value else ConfigMap(0, "coredns", 0, false, map[], map[]);
      s.(core := Some(core.(version := s.next, data := data)), next := s.next + 1)
  }

  function PutBackup(s: State, data: map<string, string>): State {
    s.(backup := Some(ConfigMap(s.next, "backup", 0, true, map[], data)), next := s.next + 1)
  }

  /** The Data of the CoreDNS ConfigMap after the splice. */
  function WrittenData(s: State, conn: ConnectorSpec, items: seq<ConfigMap>, order: seq<string>): map<string, string>
    requires s.core.Some? && CorefileJustified(s, conn, items, order)
  {
    var data := s.core.value.data;
    data[conn.corefileKey := Spliced(data[conn.corefileKey], Blocks(conn, Domains(items)), order)]
  }

  function PutWorkload(s: State, w: Template): State {
    if s.workload.Some? && s.workload.value.template == w then s
    else s.(workload := Some(Workload(s.next, w)), next := s.next + 1)
  }

  // What users do: a deleted object with a finalizer is only marked.

  function RecordCreated(s: State, n: string, r: RecordSpec): State {
    s.(records := s.records[n := DNSRecord(n, s.next, 1, false, false, r, RecordStatus([], false, ""))], next := s.next + 1)
  }

  function RecordEdited(s: State, n: string, r: RecordSpec): State {
    if n !in s.records || s.records[n].spec == r then s
    else PutRecord(s, s.records[n].(spec := r, generation := s.records[n].generation + 1))
  }

  function RecordDeleted(s: State, n: string): State {
    if n !in s.records then s
    else if s.records[n].finalizer then PutRecord(s, s.records[n].(deleting := true))
    else RecordGone(s, n)
  }

  function RecordGone(s: State, n: string): State {
    s.(records := s.records - {n}, next := s.next + 1)
  }

  function ZoneCreated(s: State, n: string, z: ZoneSpec): State {
    var status := ZoneStatus([], "000000001", 0, false, "", false);
    s.(zones := s.zones[n := DNSZone(n, s.next, s.next, 1, false, false, z, status)], next := s.next + 1)
  }

  function ZoneEdited(s: State, n: string, z: ZoneSpec): State {
    if n !in s.zones || s.zones[n].spec == z then s
    else PutZone(s, s.zones[n].(spec := z, generation := s.zones[n].generation + 1))
  }

  function ZoneDeleted(s: State, n: string): State {
    if n !in s.zones then s
    else if s.zones[n].finalizer then PutZone(s, s.zones[n].(deleting := true))
    else ZoneGone(s, n)
  }

  function ZoneGone(s: State, n: string): State {
    s.(zones := s.zones - {n}, next := s.next + 1)
  }

  function ConnectorCreated(s: State, n: string, c: ConnectorSpec): State {
    s.(connector := Some(DNSConnector(n, s.next, s.next, 1, false, false, c, ConnectorStatus([], []))), next := s.next + 1)
  }

  function ConnectorEdited(s: State, c: ConnectorSpec): State {
    if s.connector.None? || s.connector.value.spec == c then s
    else PutConnector(s, s.connector.value.(spec := c, generation := s.connector.value.generation + 1))
  }

  function ConnectorDeleted(s: State): State {
    if s.connector.None? then s
    else if s.connector.value.finalizer then PutConnector(s, s.connector.value.(deleting := true))
    else ConnectorGone(s)
  }

  function ConnectorGone(s: State): State {
    s.(connector := None, next := s.next + 1)
  }

  function CoreEdited(s: State, data: map<string, string>): State {
    PutCore(s, data).(userData := s.userData + {data})
  }

  function CoreRemoved(s: State): State {
    s.(core := None, next := s.next + 1)
  }

  function WorkloadEdited(s: State, w: Option<Template>): State {
    if w.Some? then PutWorkload(s, w.value) else s.(workload := None, next := s.next + 1)
  }

  function MapCollected(s: State, c: string): State {
    s.(maps := s.maps - {c}, next := s.next + 1)
  }

  // What the controllers write: the last finalizer of a deleted object takes the object with it.

  function RecordFinalizerSet(s: State, n: string, present: bool): State {
    if n !in s.records then s
    else if !present && s.records[n].deleting then RecordGone(s, n)
    else PutRecord(s, s.records[n].(finalizer := present))
  }

  function ZoneFinalizerSet(s: State, n: string, present: bool): State {
    if n !in s.zones then s
    else if !present && s.zones[n].deleting then ZoneGone(s, n)
    else PutZone(s, s.zones[n].(finalizer := present))
  }

  function MapFinalizerSet(s: State, c: string, present: bool): State {
    if c !in s.maps then s else PutMap(s, c, s.maps[c].(finalizer := present))
  }

  function ConnectorFinalizerSet(s: State, present: bool): State {
    if s.connector.None? then s
    else if !present && s.connector.value.deleting then ConnectorGone(s)
    else PutConnector(s, s.connector.value.(finalizer := present))
  }

  function RecordStatusSet(s: State, n: string, st: RecordStatus): State {
    if n in s.records then PutRecord(s, s.records[n].(status := st)) else s
  }

  function ZoneStatusSet(s: State, n: string, st: ZoneStatus): State {
    if n in s.zones then PutZone(s, s.zones[n].(status := st)) else s
  }

  function ConnectorStatusSet(s: State, st: ConnectorStatus): State {
    if s.connector.Some? then PutConnector(s, s.connector.value.(status := st)) else s
  }

  function ZoneMapWritten(p: Params, s: State, n: string, uid: nat, z: ZoneSpec, text: string, serial: string): State {
    PutMap(s, MapName(p, n), ZoneMap(p, s.next, n, uid, z, text, serial))
  }

  function CorefileWritten(s: State, c: ConnectorSpec, items: seq<ConfigMap>, order: seq<string>): State {
    if s.core.Some? && CorefileJustified(s, c, items, order) then
      PutCore(s, WrittenData(s, c, items, order)).(coreWritten := true)
    else s
  }

  function CoreRestored(s: State): State {
    if s.backup.Some? then PutCore(s, s.backup.value.data).(coreWritten := false) else s
  }

  function Apply(p: Params, s: State, a: Action): State {
    match a
    case CreateRecord(n, r) => RecordCreated(s, n, r)
    case EditRecord(n, r) => RecordEdited(s, n, r)
    case DeleteRecord(n) => RecordDeleted(s, n)
    case CreateZone(n, z) => ZoneCreated(s, n, z)
    case EditZone(n, z) => ZoneEdited(s, n, z)
    case DeleteZone(n) => ZoneDeleted(s, n)
    case CreateConnector(n, c) => ConnectorCreated(s, n, c)
    case EditConnector(c) => ConnectorEdited(s, c)
    case DeleteConnector => ConnectorDeleted(s)
    case EditCore(data) => CoreEdited(s, data)
    case RemoveCore => CoreRemoved(s)
    case EditWorkload(w) => WorkloadEdited(s, w)
    case CollectMap(c) => MapCollected(s, c)
    case WriteFinalizer(RecordRef(n), _, present) => RecordFinalizerSet(s, n, present)
    case WriteFinalizer(ZoneRef(n), _, present) => ZoneFinalizerSet(s, n, present)
    case WriteFinalizer(MapRef(n), _, present) => MapFinalizerSet(s, MapName(p, n), present)
    case WriteFinalizer(ConnectorRef, _, present) => ConnectorFinalizerSet(s, present)
    case WriteRecordStatus(_, n, _, st) => RecordStatusSet(s, n, st)
    case WriteZoneStatus(_, n, _, st) => ZoneStatusSet(s, n, st)
    case CreateZoneMap(n, uid, z, text, serial) => ZoneMapWritten(p, s, n, uid, z, text, serial)
    case UpdateZoneMap(n, uid, z, text, serial) => ZoneMapWritten(p, s, n, uid, z, text, serial)
    case CreateBackup(data) => PutBackup(s, data)
    case WriteWorkload(_, t) => PutWorkload(s, t)
    case WriteCorefile(_, c, items, order) => CorefileWritten(s, c, items, order)
    case HealthChecked => s
    case WriteConnectorStatus(_, st) => ConnectorStatusSet(s, st)
    case RestoreCore => CoreRestored(s)
  }

  // ---- runs ----

  predicate Initial(s: State) {
    && s.records == map[] && s.zones == map[] && s.maps == map[] && s.connector.None? && s.backup.None?
    && !s.coreWritten
    && s.userData == (if s.core.Some? then {s.core.value.data} else {})
    && (s.core.Some? ==> s.core.value.version < s.next)
    && (s.workload.Some? ==> s.workload.value.version < s.next && |s.workload.value.template.containers| > 0)
  }

  function Run(p: Params, start: State, trace: seq<Action>): State {
    if trace == [] then start else Apply(p, Run(p, start, trace[..|trace| - 1]), trace[|trace| - 1])
  }

  predicate Legal(p: Params, start: State, trace: seq<Action>) {
    trace == [] ||
    (Legal(p, start, trace[..|trace| - 1]) && Enabled(p, Run(p, start, trace[..|trace| - 1]), trace[|trace| - 1]))
  }
}
