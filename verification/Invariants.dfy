/** What every reachable state satisfies. */
module Invariants {
  import opened Objects
  import opened Corefile
  import opened CorefileLaws
  import opened PodTemplate
  import opened ZoneFile
  import opened Cluster

  // ---- the invariant ----

  predicate VersionsOk(s: State) {
    && (forall n <- s.records :: s.records[n].name == n && s.records[n].version < s.next)
    && (forall n <- s.zones :: s.zones[n].name == n && s.zones[n].version < s.next && s.zones[n].uid < s.next)
    && (forall c <- s.maps :: s.maps[c].version < s.next && s.maps[c].owner < s.next)
    && (s.connector.Some? ==> s.connector.value.version < s.next && s.connector.value.uid < s.next)
    && (s.core.Some? ==> s.core.value.version < s.next)
    && (s.workload.Some? ==> s.workload.value.version < s.next && |s.workload.value.template.containers| > 0)
  }

  /** A zone ConfigMap as the operator writes it: its key, annotations and text agree, and the text is valid. */
  ghost predicate SelfConsistent(p: Params, c: string, cm: ConfigMap) {
    && cm.name == c
    && cm.annotations.Keys == {"SerialNumber", "DomainName", "DNSZoneRef"}
    && c == MapName(p, cm.annotations["DNSZoneRef"])
    && GoodDomain(cm.annotations["DomainName"]) && '\n' !in cm.annotations["SerialNumber"]
    && exists z: ZoneSpec, text: string ::
         && z.domain == cm.annotations["DomainName"] && Admitted(z)
         && cm.data == ZoneData(z, text, cm.annotations["SerialNumber"])
         && p.validate(ConstructZoneFile(z, text, cm.annotations["SerialNumber"]))
  }

  /** The finalizer of a zone ConfigMap never outlives its zone. */
  predicate FinalizerOk(s: State, cm: ConfigMap) {
    && (cm.finalizer ==> OwnerAlive(s, cm))
    && (OwnerAlive(s, cm) ==> s.zones[cm.annotations["DNSZoneRef"]].finalizer)
  }

  ghost predicate MapsOk(p: Params, s: State) {
    forall c <- s.maps :: SelfConsistent(p, c, s.maps[c]) && FinalizerOk(s, s.maps[c])
  }

  /** The ConfigMap that a checkpointed zone's status names exists and is the zone's own. */
  predicate Checkpointed(p: Params, s: State, z: DNSZone) {
    && z.status.conditions != [] && z.status.zoneConfigmap == MapName(p, z.name) && z.finalizer
    && MapName(p, z.name) in s.maps && s.maps[MapName(p, z.name)].owner == z.uid
  }

  predicate ZoneOk(p: Params, s: State, z: DNSZone) {
    && Admitted(z.spec)
    && OwnConditions(z.status.conditions)
    && (IsReady(z.status.conditions) ==> z.status.validationPassed)
    && (z.status.validationPassed ==> z.status.checkpoint)
    && (z.status.checkpoint ==> Checkpointed(p, s, z))
  }

  predicate ZonesOk(p: Params, s: State) {
    forall n <- s.zones :: ZoneOk(p, s, s.zones[n])
  }

  predicate RecordOk(p: Params, r: DNSRecord) {
    && (r.status.validationPassed ==> p.validate(r.status.generatedRecord))
    && OwnConditions(r.status.conditions)
  }

  predicate RecordsOk(p: Params, s: State) {
    forall n <- s.records :: RecordOk(p, s.records[n])
  }

  predicate ConnectorOk(c: DNSConnector) {
    SafeConnector(c.spec) && OwnConditions(c.status.conditions)
  }

  /** Users' Data until there is a backup; and a Corefile the operator wrote has a held connector to restore it. */
  ghost predicate CoreOk(s: State) {
    && (s.connector.Some? ==> ConnectorOk(s.connector.value))
    && (s.backup.None? ==> !s.coreWritten && (s.core.Some? ==> s.core.value.data in s.userData))
    && (s.backup.Some? ==> s.backup.value.data in s.userData)
    && (s.coreWritten ==> ConnectorHeld(s))
  }

  ghost predicate Inv(p: Params, s: State) {
    VersionsOk(s) && MapsOk(p, s) && ZonesOk(p, s) && RecordsOk(p, s) && CoreOk(s)
  }

  // ---- it holds at the start ----

  lemma InitialInv(p: Params, s: State)
    requires Initial(s)
    ensures Inv(p, s)
  {}

  // ---- and every step keeps it ----

  lemma PutZoneKeeps(p: Params, s: State, z: DNSZone)
    requires Inv(p, s) && z.name in s.zones && z.uid == s.zones[z.name].uid
    requires ZoneOk(p, s, z) && (s.zones[z.name].finalizer ==> z.finalizer)
    ensures Inv(p, PutZone(s, z)) && PutZone(s, z).next >= s.next
  {
    hide SelfConsistent, GoodDomain, Admitted, SafeConnector, MapName, OneReady, IsReady;
  }

  lemma NewZoneKeeps(p: Params, s: State, n: string, z: ZoneSpec)
    requires Inv(p, s) && n !in s.zones && Admitted(z)
    ensures Inv(p, ZoneCreated(s, n, z))
  {
    hide SelfConsistent, GoodDomain, Admitted, SafeConnector, MapName;
  }

  lemma ConsistentName(p: Params, c: string, cm: ConfigMap)
    requires SelfConsistent(p, c, cm)
    ensures cm.name == c && "DNSZoneRef" in cm.annotations && c == MapName(p, cm.annotations["DNSZoneRef"])
  {}

  lemma RemoveZoneKeepsMap(p: Params, s: State, t: State, n: string, c: string)
    requires VersionsOk(s) && MapsOk(p, s) && n in s.zones && t.zones == s.zones - {n} && c in s.maps
    requires s.zones[n].finalizer ==> !MapHeldFor(p, s, n, s.zones[n].uid)
    ensures FinalizerOk(t, s.maps[c])
  {
    hide SelfConsistent, MapName;
    assert SelfConsistent(p, c, s.maps[c]) && FinalizerOk(s, s.maps[c]);
    ConsistentName(p, c, s.maps[c]);
  }

  lemma RemoveZoneKeeps(p: Params, s: State, n: string)
    requires Inv(p, s) && n in s.zones
    requires s.zones[n].finalizer ==> !MapHeldFor(p, s, n, s.zones[n].uid)
    ensures Inv(p, ZoneGone(s, n))
  {
    hide SelfConsistent, FinalizerOk, GoodDomain, Admitted, SafeConnector, MapName, OneReady, IsReady, MapHeldFor,
      OwnerAlive;
    var t := s.(zones := s.zones - {n}, next := s.next + 1);
    forall c <- t.maps ensures SelfConsistent(p, c, t.maps[c]) && FinalizerOk(t, t.maps[c]) {
      RemoveZoneKeepsMap(p, s, t, n, c);
    }
  }

  lemma PutRecordKeeps(p: Params, s: State, r: DNSRecord)
    requires Inv(p, s) && r.name in s.records && RecordOk(p, r)
    ensures Inv(p, PutRecord(s, r)) && PutRecord(s, r).next >= s.next
  {
    hide SelfConsistent, GoodDomain, Admitted, SafeConnector, MapName, OneReady, IsReady;
  }

  lemma PutMapKeepsMaps(p: Params, s: State, cm: ConfigMap)
    requires MapsOk(p, s) && SelfConsistent(p, cm.name, cm) && ZoneHeld(s, cm.annotations["DNSZoneRef"], cm.owner)
    ensures MapsOk(p, PutMap(s, cm.name, cm))
  {
    hide SelfConsistent, MapName;
    var t := PutMap(s, cm.name, cm);
    ConsistentName(p, cm.name, cm);
    StillConsistent(p, cm, s.next, cm.finalizer);
    forall c <- t.maps ensures SelfConsistent(p, c, t.maps[c]) && FinalizerOk(t, t.maps[c]) {
      if c in s.maps {
        assert SelfConsistent(p, c, s.maps[c]) && FinalizerOk(s, s.maps[c]);
      }
    }
  }

  lemma StillConsistent(p: Params, cm: ConfigMap, version: nat, held: bool)
    requires SelfConsistent(p, cm.name, cm)
    ensures SelfConsistent(p, cm.name, cm.(version := version, finalizer := held))
  {
    hide GoodDomain, Admitted, MapName, ZoneData, ConstructZoneFile;
  }

  lemma PutMapKeepsZone(p: Params, s: State, cm: ConfigMap, z: DNSZone)
    requires NamesApart(p) && ZoneOk(p, s, z)
    requires "DNSZoneRef" in cm.annotations && ZoneHeld(s, cm.annotations["DNSZoneRef"], cm.owner)
    requires z.name in s.zones && z == s.zones[z.name] && cm.name == MapName(p, cm.annotations["DNSZoneRef"])
    ensures ZoneOk(p, PutMap(s, cm.name, cm), z)
  {
    hide GoodDomain, Admitted, MapName, OneReady, IsReady;
    assert MapName(p, z.name) == cm.name ==> z.name == cm.annotations["DNSZoneRef"];
  }

  lemma PutMapKeepsZones(p: Params, s: State, cm: ConfigMap)
    requires ZonesOk(p, s) && VersionsOk(s) && NamesApart(p) && SelfConsistent(p, cm.name, cm)
    requires ZoneHeld(s, cm.annotations["DNSZoneRef"], cm.owner)
    ensures ZonesOk(p, PutMap(s, cm.name, cm))
  {
    hide SelfConsistent, ZoneOk, MapName, NamesApart;
    ConsistentName(p, cm.name, cm);
    var t := PutMap(s, cm.name, cm);
    forall m <- t.zones ensures ZoneOk(p, t, t.zones[m]) {
      assert ZoneOk(p, s, s.zones[m]) && s.zones[m].name == m;
      PutMapKeepsZone(p, s, cm, s.zones[m]);
    }
  }

  lemma PutMapKeeps(p: Params, s: State, cm: ConfigMap)
    requires Inv(p, s) && NamesApart(p) && SelfConsistent(p, cm.name, cm) && cm.owner < s.next
    requires ZoneHeld(s, cm.annotations["DNSZoneRef"], cm.owner)
    ensures Inv(p, PutMap(s, cm.name, cm)) && PutMap(s, cm.name, cm).next >= s.next
  {
    hide SelfConsistent, MapsOk, ZonesOk, GoodDomain, Admitted, SafeConnector, MapName;
    PutMapKeepsMaps(p, s, cm);
    PutMapKeepsZones(p, s, cm);
  }

  lemma CollectKeepsZone(p: Params, s: State, c: string, n: string)
    requires ZonesOk(p, s) && VersionsOk(s) && NamesApart(p) && n in s.zones
    requires c in s.maps && !OwnerAlive(s, s.maps[c]) && SelfConsistent(p, c, s.maps[c])
    ensures ZoneOk(p, MapCollected(s, c), s.zones[n])
  {
    hide SelfConsistent, GoodDomain, Admitted, MapName, OneReady, IsReady, ZoneOk;
    ConsistentName(p, c, s.maps[c]);
    ZoneOkAt(p, s, n);
    assert s.zones[n].name == n;
    assert MapName(p, n) == c ==> s.maps[c].annotations["DNSZoneRef"] == n;
    StillZoneOk(p, s, s.zones[n], c);
  }

  lemma StillZoneOk(p: Params, s: State, z: DNSZone, c: string)
    requires ZoneOk(p, s, z) && (c in s.maps && MapName(p, z.name) == c ==> s.maps[c].owner != z.uid)
    ensures ZoneOk(p, MapCollected(s, c), z)
  {
    hide Admitted, MapName, OneReady, IsReady;
  }

  lemma CollectKeeps(p: Params, s: State, c: string)
    requires Inv(p, s) && NamesApart(p) && c in s.maps && !OwnerAlive(s, s.maps[c])
    ensures Inv(p, MapCollected(s, c))
  {
    hide SelfConsistent, SafeConnector, ZoneOk, NamesApart;
    var t := MapCollected(s, c);
    ConsistentAt(p, s, c);
    forall m <- t.zones ensures ZoneOk(p, t, t.zones[m]) {
      CollectKeepsZone(p, s, c, m);
    }
  }

  lemma PutConnectorKeeps(p: Params, s: State, c: DNSConnector)
    requires Inv(p, s) && s.connector.Some? && c.uid == s.connector.value.uid
    requires ConnectorOk(c) && (s.connector.value.finalizer ==> c.finalizer)
    ensures Inv(p, PutConnector(s, c)) && PutConnector(s, c).next >= s.next
  {
    hide SelfConsistent, GoodDomain, Admitted, SafeConnector, MapName, OneReady, IsReady;
  }

  lemma RemoveConnectorKeeps(p: Params, s: State)
    requires Inv(p, s) && s.connector.Some? && !s.coreWritten
    ensures Inv(p, ConnectorGone(s))
  {
    hide SelfConsistent, GoodDomain, Admitted, SafeConnector, MapName, OneReady, IsReady;
  }

  // ---- the steps that touch the CoreDNS ConfigMap ----

  lemma SameObjectsKeep(p: Params, s: State, t: State)
    requires Inv(p, s) && t.next >= s.next && CoreOk(t)
    requires t.records == s.records && t.zones == s.zones && t.maps == s.maps && t.connector == s.connector
    requires t.core.Some? ==> t.core.value.version < t.next
    requires t.workload.Some? ==> t.workload.value.version < t.next && |t.workload.value.template.containers| > 0
    ensures Inv(p, t)
  {
    hide SelfConsistent, GoodDomain, Admitted, SafeConnector, MapName, OneReady, IsReady, CoreOk;
  }

  lemma CoreVersionsOk(s: State)
    requires VersionsOk(s)
    ensures s.workload.Some? ==> s.workload.value.version < s.next && |s.workload.value.template.containers| > 0
    ensures s.core.Some? ==> s.core.value.version < s.next
  {}

  lemma EditCoreKeeps(p: Params, s: State, data: map<string, string>)
    requires Inv(p, s)
    ensures Inv(p, CoreEdited(s, data))
  {
    hide SafeConnector, VersionsOk, MapsOk, ZonesOk, RecordsOk;
    CoreVersionsOk(s);
    SameObjectsKeep(p, s, CoreEdited(s, data));
  }

  lemma RemoveCoreKeeps(p: Params, s: State)
    requires Inv(p, s)
    ensures Inv(p, CoreRemoved(s))
  {
    hide SafeConnector, VersionsOk, MapsOk, ZonesOk, RecordsOk;
    CoreVersionsOk(s);
    SameObjectsKeep(p, s, CoreRemoved(s));
  }

  lemma CreateBackupKeeps(p: Params, s: State, data: map<string, string>)
    requires Inv(p, s) && s.backup.None? && ConnectorHeld(s) && data in s.userData
    ensures Inv(p, PutBackup(s, data))
  {
    hide SafeConnector, VersionsOk, MapsOk, ZonesOk, RecordsOk;
    CoreVersionsOk(s);
    SameObjectsKeep(p, s, PutBackup(s, data));
  }

  lemma RestoreCoreKeeps(p: Params, s: State)
    requires Inv(p, s) && s.core.Some? && s.backup.Some? && ConnectorHeld(s)
    ensures Inv(p, CoreRestored(s))
  {
    hide SafeConnector, VersionsOk, MapsOk, ZonesOk, RecordsOk;
    CoreVersionsOk(s);
    SameObjectsKeep(p, s, CoreRestored(s));
  }

  lemma WriteCorefileKeeps(p: Params, s: State, conn: ConnectorSpec, items: seq<ConfigMap>, order: seq<string>)
    requires Inv(p, s) && s.core.Some? && CorefileJustified(s, conn, items, order)
    ensures Inv(p, CorefileWritten(s, conn, items, order))
  {
    hide SafeConnector, VersionsOk, MapsOk, ZonesOk, RecordsOk, WrittenData, IsOrderOf, ScanText, Blocks, Domains,
      GoodDomain, Admitted, ZoneEntryOk;
    CoreVersionsOk(s);
    SameObjectsKeep(p, s, CorefileWritten(s, conn, items, order));
  }

  lemma WorkloadKeeps(p: Params, s: State, w: Option<Template>)
    requires Inv(p, s) && (w.Some? ==> |w.value.containers| > 0)
    ensures Inv(p, WorkloadEdited(s, w))
  {
    hide SafeConnector, VersionsOk, MapsOk, ZonesOk, RecordsOk;
    CoreVersionsOk(s);
    SameObjectsKeep(p, s, WorkloadEdited(s, w));
  }

  // ---- the remaining objects ----

  lemma NewRecordKeeps(p: Params, s: State, n: string, r: RecordSpec)
    requires Inv(p, s)
    ensures Inv(p, RecordCreated(s, n, r))
  {
    hide SelfConsistent, GoodDomain, Admitted, SafeConnector, MapName, OneReady, IsReady;
  }

  lemma RemoveRecordKeeps(p: Params, s: State, n: string)
    requires Inv(p, s)
    ensures Inv(p, RecordGone(s, n))
  {
    hide SelfConsistent, GoodDomain, Admitted, SafeConnector, MapName, OneReady, IsReady;
  }

  lemma NewConnectorKeeps(p: Params, s: State, n: string, c: ConnectorSpec)
    requires Inv(p, s) && s.connector.None? && SafeConnector(c)
    ensures Inv(p, ConnectorCreated(s, n, c))
  {
    hide SelfConsistent, GoodDomain, Admitted, SafeConnector, MapName, OneReady, IsReady;
  }

  lemma ZoneMapConsistent(p: Params, version: nat, n: string, uid: nat, z: ZoneSpec, text: string, serial: string)
    requires Admitted(z) && '\n' !in serial && p.validate(ConstructZoneFile(z, text, serial))
    ensures SelfConsistent(p, MapName(p, n), ZoneMap(p, version, n, uid, z, text, serial))
  {
    hide GoodDomain, MapName, ZoneData, ConstructZoneFile;
    var cm := ZoneMap(p, version, n, uid, z, text, serial);
    assert cm.annotations["SerialNumber"] == serial && cm.annotations["DomainName"] == z.domain;
    assert cm.data == ZoneData(z, text, cm.annotations["SerialNumber"]);
  }

  lemma WriteZoneMapKeeps(p: Params, s: State, n: string, uid: nat, z: ZoneSpec, text: string, serial: string)
    requires Inv(p, s) && NamesApart(p) && ZoneHeld(s, n, uid)
    requires Admitted(z) && '\n' !in serial && p.validate(ConstructZoneFile(z, text, serial))
    ensures Inv(p, ZoneMapWritten(p, s, n, uid, z, text, serial))
  {
    hide SelfConsistent, MapsOk, ZonesOk, RecordsOk, CoreOk, GoodDomain, Admitted, MapName, NamesApart,
      ConstructZoneFile, ZoneData;
    ZoneMapConsistent(p, s.next, n, uid, z, text, serial);
    PutMapKeeps(p, s, ZoneMap(p, s.next, n, uid, z, text, serial));
  }

  /** Taking the finalizer off a ConfigMap asks nothing of its zone. */
  lemma ReleaseMapKeeps(p: Params, s: State, c: string)
    requires Inv(p, s) && c in s.maps
    ensures Inv(p, MapFinalizerSet(s, c, false))
  {
    hide SelfConsistent, GoodDomain, Admitted, SafeConnector, MapName, OneReady, IsReady;
    ConsistentAt(p, s, c);
    ConsistentName(p, c, s.maps[c]);
    StillConsistent(p, s.maps[c], s.next, false);
  }

  lemma HoldMapKeeps(p: Params, s: State, n: string)
    requires Inv(p, s) && NamesApart(p) && MapName(p, n) in s.maps && ZoneHeld(s, n, s.maps[MapName(p, n)].owner)
    ensures Inv(p, MapFinalizerSet(s, MapName(p, n), true))
  {
    hide GoodDomain, Admitted, MapName, MapsOk, ZonesOk, RecordsOk, CoreOk, ConstructZoneFile, ZoneData;
    var c := MapName(p, n);
    ConsistentAt(p, s, c);
    var cm := s.maps[c].(finalizer := true);
    assert cm.annotations["DNSZoneRef"] == n;
    PutMapKeeps(p, s, cm);
  }

  lemma ConsistentAt(p: Params, s: State, c: string)
    requires MapsOk(p, s) && c in s.maps
    ensures SelfConsistent(p, c, s.maps[c]) && FinalizerOk(s, s.maps[c])
  {
    hide SelfConsistent, FinalizerOk;
  }

  lemma ZoneOkAt(p: Params, s: State, n: string)
    requires ZonesOk(p, s) && n in s.zones
    ensures ZoneOk(p, s, s.zones[n])
  {
    hide ZoneOk;
  }

  /** A justified status write keeps what the status claims. */
  lemma ZoneStatusKeeps(p: Params, s: State, n: string, st: ZoneStatus)
    requires Inv(p, s) && n in s.zones
    requires ZoneStatusJustified(p, s, n, st) || NoticeJustified(s.zones[n].status, st)
    ensures Inv(p, ZoneStatusSet(s, n, st))
  {
    hide MapsOk, ZonesOk, RecordsOk, CoreOk, GoodDomain, Admitted, MapName;
    ZoneOkAt(p, s, n);
    PutZoneKeeps(p, s, s.zones[n].(status := st));
  }

  lemma RecordStatusKeeps(p: Params, s: State, author: Actor, n: string, st: RecordStatus)
    requires Inv(p, s) && n in s.records && RecordStatusJustified(p, author, s.records[n], st)
    ensures Inv(p, RecordStatusSet(s, n, st))
  {
    hide MapsOk, ZonesOk, CoreOk, GoodDomain, Admitted, MapName, ConstructRecord;
    PutRecordKeeps(p, s, s.records[n].(status := st));
  }

  lemma RecordPassed(p: Params, s: State, n: string)
    requires RecordsOk(p, s) && n in s.records
    ensures RecordOk(p, s.records[n])
  {}

  lemma ZoneKeepsOk(p: Params, s: State, z: DNSZone, y: DNSZone)
    requires ZoneOk(p, s, z) && y.name == z.name && y.uid == z.uid && y.status == z.status
    requires (z.finalizer ==> y.finalizer) && Admitted(y.spec)
    ensures ZoneOk(p, s, y)
  {}

  lemma SafeSpec(s: State)
    requires CoreOk(s)
    ensures s.connector.Some? ==> ConnectorOk(s.connector.value)
  {}

  lemma NotWritten(s: State)
    requires CoreOk(s) && !ConnectorHeld(s)
    ensures !s.coreWritten
  {
    hide ConnectorHeld, SafeConnector;
  }

  /** A write that leaves the status alone. */
  lemma ChangeRecordKeeps(p: Params, s: State, n: string, r: DNSRecord)
    requires Inv(p, s) && n in s.records && r.status == s.records[n].status && r.name == s.records[n].name
    ensures Inv(p, PutRecord(s, r))
  {
    hide MapsOk, ZonesOk, CoreOk, PutRecord;
    RecordPassed(p, s, n);
    PutRecordKeeps(p, s, r);
  }

  lemma ChangeZoneKeeps(p: Params, s: State, n: string, z: DNSZone)
    requires Inv(p, s) && n in s.zones && z.status == s.zones[n].status && z.name == s.zones[n].name && z.uid == s.zones[n].uid
    requires (s.zones[n].finalizer ==> z.finalizer) && Admitted(z.spec)
    ensures Inv(p, PutZone(s, z))
  {
    hide MapsOk, ZonesOk, CoreOk, PutZone, GoodDomain, Admitted;
    ZoneOkAt(p, s, n);
    ZoneKeepsOk(p, s, s.zones[n], z);
    PutZoneKeeps(p, s, z);
  }

  lemma AdmittedAt(p: Params, s: State, n: string)
    requires ZonesOk(p, s) && n in s.zones
    ensures Admitted(s.zones[n].spec)
  {
    hide GoodDomain, Admitted;
  }

  lemma RecordStepsKeep(p: Params, s: State, n: string, r: RecordSpec, present: bool)
    requires Inv(p, s) && n in s.records && (!present ==> s.records[n].deleting)
    ensures Inv(p, RecordEdited(s, n, r)) && Inv(p, RecordDeleted(s, n)) && Inv(p, RecordFinalizerSet(s, n, present))
  {
    hide Inv, PutRecord, RecordGone;
    RemoveRecordKeeps(p, s, n);
    ChangeRecordKeeps(p, s, n, s.records[n].(spec := r, generation := s.records[n].generation + 1));
    ChangeRecordKeeps(p, s, n, s.records[n].(deleting := true));
    ChangeRecordKeeps(p, s, n, s.records[n].(finalizer := present));
  }

  lemma ZoneDeletedKeeps(p: Params, s: State, n: string)
    requires Inv(p, s) && n in s.zones
    ensures Inv(p, ZoneDeleted(s, n))
  {
    hide MapsOk, RecordsOk, CoreOk, PutZone, ZoneGone, GoodDomain, Admitted;
    if s.zones[n].finalizer {
      AdmittedAt(p, s, n);
      ChangeZoneKeeps(p, s, n, s.zones[n].(deleting := true));
    } else {
      RemoveZoneKeeps(p, s, n);
    }
  }

  lemma ZoneFinalizerKeeps(p: Params, s: State, n: string, present: bool)
    requires Inv(p, s) && n in s.zones && (!present ==> s.zones[n].deleting && !MapHeldFor(p, s, n, s.zones[n].uid))
    ensures Inv(p, ZoneFinalizerSet(s, n, present))
  {
    hide MapsOk, RecordsOk, CoreOk, PutZone, ZoneGone, GoodDomain, Admitted, MapHeldFor;
    if present {
      AdmittedAt(p, s, n);
      ChangeZoneKeeps(p, s, n, s.zones[n].(finalizer := true));
    } else {
      RemoveZoneKeeps(p, s, n);
    }
  }

  lemma ConnectorDeletedKeeps(p: Params, s: State)
    requires Inv(p, s) && s.connector.Some?
    ensures Inv(p, ConnectorDeleted(s))
  {
    hide MapsOk, ZonesOk, RecordsOk, CoreOk, SafeConnector, PutConnector, ConnectorGone;
    SafeSpec(s);
    if s.connector.value.finalizer {
      PutConnectorKeeps(p, s, s.connector.value.(deleting := true));
    } else {
      NotWritten(s);
      RemoveConnectorKeeps(p, s);
    }
  }

  lemma ConnectorFinalizerKeeps(p: Params, s: State, present: bool)
    requires Inv(p, s) && s.connector.Some? && (!present ==> s.connector.value.deleting && !s.coreWritten)
    ensures Inv(p, ConnectorFinalizerSet(s, present))
  {
    hide MapsOk, ZonesOk, RecordsOk, CoreOk, SafeConnector, PutConnector, ConnectorGone;
    SafeSpec(s);
    if present {
      PutConnectorKeeps(p, s, s.connector.value.(finalizer := true));
    } else {
      RemoveConnectorKeeps(p, s);
    }
  }

  lemma ConnectorStatusKeeps(p: Params, s: State, st: ConnectorStatus)
    requires Inv(p, s) && s.connector.Some? && OneReady(st.conditions)
    ensures Inv(p, ConnectorStatusSet(s, st))
  {
    hide MapsOk, ZonesOk, RecordsOk, CoreOk, SafeConnector, PutConnector;
    SafeSpec(s);
    PutConnectorKeeps(p, s, s.connector.value.(status := st));
  }

  lemma ConnectorEditedKeeps(p: Params, s: State, c: ConnectorSpec)
    requires Inv(p, s) && s.connector.Some? && SafeConnector(c)
    ensures Inv(p, ConnectorEdited(s, c))
  {
    hide MapsOk, ZonesOk, RecordsOk, CoreOk, SafeConnector, PutConnector;
    SafeSpec(s);
    PutConnectorKeeps(p, s, s.connector.value.(spec := c, generation := s.connector.value.generation + 1));
  }

  lemma ZoneEditedKeeps(p: Params, s: State, n: string, z: ZoneSpec)
    requires Inv(p, s) && n in s.zones && Admitted(z)
    ensures Inv(p, ZoneEdited(s, n, z))
  {
    hide MapsOk, ZonesOk, RecordsOk, CoreOk, PutZone, GoodDomain, Admitted;
    ChangeZoneKeeps(p, s, n, s.zones[n].(spec := z, generation := s.zones[n].generation + 1));
  }

  lemma FinalizerStepKeeps(p: Params, s: State, ref: Ref, version: nat, present: bool)
    requires Inv(p, s) && NamesApart(p) && FinalizerJustified(p, s, ref, version, present)
    ensures Inv(p, Apply(p, s, WriteFinalizer(ref, version, present)))
  {
    hide Inv, MapName, NamesApart, ZoneHeld, MapHeldFor, RecordFinalizerSet, ZoneFinalizerSet, MapFinalizerSet,
      ConnectorFinalizerSet;
    match ref
    case RecordRef(n) => RecordStepsKeep(p, s, n, s.records[n].spec, present);
    case ZoneRef(n) => ZoneFinalizerKeeps(p, s, n, present);
    case MapRef(n) =>
      if present { HoldMapKeeps(p, s, n); } else { ReleaseMapKeeps(p, s, MapName(p, n)); }
    case ConnectorRef => ConnectorFinalizerKeeps(p, s, present);
  }

  /** Every step of anyone keeps the invariant. */
  lemma StepKeeps(p: Params, s: State, a: Action)
    requires Inv(p, s) && NamesApart(p) && Enabled(p, s, a)
    ensures Inv(p, Apply(p, s, a))
  {
    hide Inv, MapName, GoodDomain, Admitted, SafeConnector, CorefileJustified, ZoneStatusJustified,
      FinalizerJustified, RecordStatusJustified, ConstructZoneFile, NamesApart, NoticeJustified, RecordCreated,
      RecordEdited, RecordDeleted, ZoneCreated, ZoneEdited, ZoneDeleted, ConnectorCreated, ConnectorEdited,
      ConnectorDeleted, CoreEdited, CoreRemoved, WorkloadEdited, MapCollected, RecordFinalizerSet, ZoneFinalizerSet,
      MapFinalizerSet, ConnectorFinalizerSet, RecordStatusSet, ZoneStatusSet, ConnectorStatusSet, ZoneMapWritten,
      PutBackup, PutWorkload, CorefileWritten, CoreRestored;
    match a {
      case CreateRecord(n, r) => NewRecordKeeps(p, s, n, r);
      case EditRecord(n, r) => RecordStepsKeep(p, s, n, r, true);
      case DeleteRecord(n) => RecordStepsKeep(p, s, n, s.records[n].spec, true);
      case CreateZone(n, z) => NewZoneKeeps(p, s, n, z);
      case EditZone(n, z) => ZoneEditedKeeps(p, s, n, z);
      case DeleteZone(n) => ZoneDeletedKeeps(p, s, n);
      case CreateConnector(n, c) => NewConnectorKeeps(p, s, n, c);
      case EditConnector(c) => ConnectorEditedKeeps(p, s, c);
      case DeleteConnector => ConnectorDeletedKeeps(p, s);
      case EditCore(data) => EditCoreKeeps(p, s, data);
      case RemoveCore => RemoveCoreKeeps(p, s);
      case EditWorkload(w) => WorkloadKeeps(p, s, w);
      case CollectMap(c) => CollectKeeps(p, s, c);
      case WriteFinalizer(ref, version, present) => FinalizerStepKeeps(p, s, ref, version, present);
      case WriteRecordStatus(author, n, _, st) => RecordStatusKeeps(p, s, author, n, st);
      case WriteZoneStatus(_, n, _, st) => ZoneStatusKeeps(p, s, n, st);
      case CreateZoneMap(n, uid, z, text, serial) => WriteZoneMapKeeps(p, s, n, uid, z, text, serial);
      case UpdateZoneMap(n, uid, z, text, serial) => WriteZoneMapKeeps(p, s, n, uid, z, text, serial);
      case CreateBackup(data) => CreateBackupKeeps(p, s, data);
      case WriteWorkload(_, t) => WorkloadWrittenKeeps(p, s, t);
      case WriteCorefile(_, c, items, order) => WriteCorefileKeeps(p, s, c, items, order);
      case HealthChecked =>
      case WriteConnectorStatus(_, st) => ConnectorStatusKeeps(p, s, st);
      case RestoreCore => RestoreCoreKeeps(p, s);
    }
  }

  lemma WorkloadWrittenKeeps(p: Params, s: State, w: Template)
    requires Inv(p, s) && |w.containers| > 0
    ensures Inv(p, PutWorkload(s, w))
  {
    hide Inv, PutWorkload;
    WorkloadKeeps(p, s, Some(w));
  }

  /** Every reachable state satisfies the invariant. */
  lemma {:induction false} RunsAreSafe(p: Params, start: State, trace: seq<Action>)
    requires NamesApart(p) && Initial(start) && Legal(p, start, trace)
    ensures Inv(p, Run(p, start, trace))
  {
    hide Inv, Enabled, Apply, Initial, NamesApart;
    if trace == [] {
      InitialInv(p, start);
    } else {
      RunsAreSafe(p, start, trace[..|trace| - 1]);
      StepKeeps(p, Run(p, start, trace[..|trace| - 1]), trace[|trace| - 1]);
    }
  }
}
