/** Safety over whole runs: any interleaving of users, the collector and the three controllers. */
module Safety {
  import opened Text
  import opened Objects
  import opened Corefile
  import opened CorefileLaws
  import opened PodTemplate
  import opened PodTemplateLaws
  import opened ZoneFile
  import opened ZoneFileLaws
  import opened Cluster
  import opened Invariants
  import opened Environment

  // ---- runs, step by step ----

  ghost predicate Reachable(p: Params, start: State, trace: seq<Action>) {
    NamesApart(p) && Initial(start) && Legal(p, start, trace)
  }

  function At(p: Params, start: State, trace: seq<Action>, k: nat): State
    requires k <= |trace|
  {
    Run(p, start, trace[..k])
  }

  lemma {:induction false} LegalPrefix(p: Params, start: State, trace: seq<Action>, k: nat)
    requires Legal(p, start, trace) && k <= |trace|
    ensures Legal(p, start, trace[..k])
    decreases |trace|
  {
    hide Enabled, Run;
    if k == |trace| {
      assert trace[..k] == trace;
    } else {
      LegalPrefix(p, start, trace[..|trace| - 1], k);
      assert trace[..|trace| - 1][..k] == trace[..k];
    }
  }

  lemma StepAt(p: Params, start: State, trace: seq<Action>, k: nat)
    requires Reachable(p, start, trace) && k < |trace|
    ensures Inv(p, At(p, start, trace, k)) && Enabled(p, At(p, start, trace, k), trace[k])
    ensures At(p, start, trace, k + 1) == Apply(p, At(p, start, trace, k), trace[k])
  {
    hide Enabled, Apply, Inv, NamesApart, Initial;
    LegalPrefix(p, start, trace, k);
    LegalPrefix(p, start, trace, k + 1);
    assert trace[..k + 1][..k] == trace[..k];
    RunsAreSafe(p, start, trace[..k]);
  }

  lemma StartsAt(p: Params, start: State, trace: seq<Action>)
    ensures At(p, start, trace, 0) == start
  {
    assert trace[..0] == [];
  }

  lemma AtEnd(p: Params, start: State, trace: seq<Action>)
    requires Reachable(p, start, trace)
    ensures At(p, start, trace, |trace|) == Run(p, start, trace) && Inv(p, Run(p, start, trace))
  {
    hide Inv, Run, Initial;
    assert trace[..|trace|] == trace;
    RunsAreSafe(p, start, trace);
  }

  // ---- the zone ConfigMaps ----

  /** The serial field of the SOA record, read off its line of the file. */
  function SoaSerial(text: string): string {
    var lines := Split(text, '\n');
    if |lines| <= SERIAL_LINE then "" else DropEnd(Drop(lines[SERIAL_LINE], 1), 13)
  }

  lemma SerialReadBack(z: ZoneSpec, records: string, serial: string)
    requires Admitted(z) && '\n' !in serial
    ensures SoaSerial(ConstructZoneFile(z, records, serial)) == serial
  {
    var lines := HeaderLines(HeaderOf(z), serial);
    var top, rest := lines[..4], Unlines(lines[4..]) + records;
    assert lines == top + lines[4..];
    UnlinesAppend(top, lines[4..]);
    assert ConstructZoneFile(z, records, serial) == Unlines(top) + rest;
    TopIsLines(z, serial);
    SplitUnlines(top, rest);
    Between("\t", serial, "     ; Serial");
  }

  /** Only the address, in the last header line, may span lines. */
  lemma TopIsLines(z: ZoneSpec, serial: string)
    requires Admitted(z) && '\n' !in serial
    ensures forall line <- HeaderLines(HeaderOf(z), serial)[..4] :: '\n' !in line
  {
    hide Decimal, SpaceFree;
    var h := HeaderOf(z).(ip := "");
    assert '\n' !in h.origin by { DomainOneLine(z.domain); }
    HeaderIsLines(h, serial);
    assert HeaderLines(HeaderOf(z), serial)[..4] == HeaderLines(h, serial)[..4];
  }

  lemma DomainOneLine(d: string)
    requires GoodDomain(d)
    ensures '\n' !in EnsureFQDN(d)
  {
    assert IsSpace('\n');
  }

  /** What the connector asks of a ConfigMap it fetched. */
  predicate Complete(cm: ConfigMap) {
    && "DNSZoneRef" in cm.annotations && "DomainName" in cm.annotations && "SerialNumber" in cm.annotations
    && ZoneEntryOk(cm) && VolumeEntryOk(cm)
  }

  lemma ConsistentFacts(p: Params, c: string, cm: ConfigMap)
    requires SelfConsistent(p, c, cm)
    ensures Complete(cm) && ZoneMapOk(cm) && GoodDomain(DomainOf(cm))
    ensures cm.data.Keys == {ZoneFileKey(DomainOf(cm))}
    ensures p.validate(cm.data[ZoneFileKey(DomainOf(cm))])
    ensures SoaSerial(cm.data[ZoneFileKey(DomainOf(cm))]) == cm.annotations["SerialNumber"]
  {
    hide GoodDomain, ConstructZoneFile, ZoneFileKey, Admitted, SoaSerial, MapName;
    var z: ZoneSpec, text: string :| z.domain == cm.annotations["DomainName"] && Admitted(z) &&
      cm.data == ZoneData(z, text, cm.annotations["SerialNumber"]) &&
      p.validate(ConstructZoneFile(z, text, cm.annotations["SerialNumber"]));
    SerialReadBack(z, text, cm.annotations["SerialNumber"]);
    ZoneMapEntries(cm);
  }

  /**
   * Last good version: in every reachable state each zone ConfigMap has one key, that of its
   * domain, and text that passed validation and carries the serial of its annotation.
   */
  lemma LastGood(p: Params, start: State, trace: seq<Action>, c: string)
    requires Reachable(p, start, trace) && c in Run(p, start, trace).maps
    ensures var cm := Run(p, start, trace).maps[c];
      && cm.name == c && Complete(cm) && ZoneMapOk(cm) && GoodDomain(DomainOf(cm))
      && cm.data.Keys == {ZoneFileKey(DomainOf(cm))}
      && p.validate(cm.data[ZoneFileKey(DomainOf(cm))])
      && SoaSerial(cm.data[ZoneFileKey(DomainOf(cm))]) == cm.annotations["SerialNumber"]
  {
    hide Run, Initial, Legal, NamesApart, ZonesOk, RecordsOk, CoreOk, VersionsOk, SelfConsistent, Complete,
      ZoneMapOk, GoodDomain;
    AtEnd(p, start, trace);
    var s := Run(p, start, trace);
    ConsistentAt(p, s, c);
    ConsistentName(p, c, s.maps[c]);
    ConsistentFacts(p, c, s.maps[c]);
  }

  /** The finalizer of a zone ConfigMap never outlives the zone it belongs to. */
  lemma FinalizerNeverOutlivesZone(p: Params, start: State, trace: seq<Action>, c: string)
    requires Reachable(p, start, trace) && c in Run(p, start, trace).maps && Run(p, start, trace).maps[c].finalizer
    ensures var s := Run(p, start, trace);
      && "DNSZoneRef" in s.maps[c].annotations
      && c == MapName(p, s.maps[c].annotations["DNSZoneRef"])
      && ZoneHeld(s, s.maps[c].annotations["DNSZoneRef"], s.maps[c].owner)
  {
    hide Run, Initial, Legal, NamesApart, ZonesOk, RecordsOk, CoreOk, VersionsOk, SelfConsistent;
    AtEnd(p, start, trace);
    var s := Run(p, start, trace);
    ConsistentAt(p, s, c);
    ConsistentName(p, c, s.maps[c]);
  }

  // ---- the status of a zone ----

  /** The inner loop of fetchGoodZones: some condition is Ready=True, or there is one and the checkpoint is set. */
  predicate Selected(z: DNSZone) {
    exists c <- z.status.conditions :: (c.kind == READY && c.status) || z.status.checkpoint
  }

  /** The status flags imply one another, and fetchGoodZones selects exactly the checkpointed zones. */
  lemma StatusImplications(p: Params, start: State, trace: seq<Action>, n: string)
    requires Reachable(p, start, trace) && n in Run(p, start, trace).zones
    ensures var s := Run(p, start, trace);
      var st := s.zones[n].status;
      && (IsReady(st.conditions) ==> st.validationPassed)
      && (st.validationPassed ==> st.checkpoint)
      && (st.checkpoint ==> st.conditions != [] && st.zoneConfigmap == MapName(p, n) && MapName(p, n) in s.maps &&
                            s.maps[MapName(p, n)].owner == s.zones[n].uid)
      && (Selected(s.zones[n]) <==> st.checkpoint)
  {
    hide Run, Initial, Legal, NamesApart, MapsOk, RecordsOk, CoreOk, MapName, Admitted;
    AtEnd(p, start, trace);
    SelectedIffCheckpointed(p, Run(p, start, trace), n);
  }

  lemma SelectedIffCheckpointed(p: Params, s: State, n: string)
    requires Inv(p, s) && n in s.zones
    ensures Selected(s.zones[n]) <==> s.zones[n].status.checkpoint
  {
    hide MapsOk, RecordsOk, CoreOk, MapName, Admitted;
    ZoneOkAt(p, s, n);
    var conditions := s.zones[n].status.conditions;
    if s.zones[n].status.checkpoint {
      assert conditions[0] in conditions;
    }
  }

  /** While zone n is the object with this uid, it is checkpointed. */
  predicate StaysCheckpointed(s: State, n: string, uid: nat) {
    uid < s.next && (n in s.zones && s.zones[n].uid == uid ==> s.zones[n].status.checkpoint)
  }

  lemma PutZoneKeepsCheckpoint(s: State, m: string, z: DNSZone, n: string, uid: nat)
    requires VersionsOk(s) && StaysCheckpointed(s, n, uid) && m in s.zones
    requires z.name == s.zones[m].name && z.uid == s.zones[m].uid && (s.zones[m].status.checkpoint ==> z.status.checkpoint)
    ensures StaysCheckpointed(PutZone(s, z), n, uid)
  {}

  lemma NewZoneKeepsCheckpoint(s: State, m: string, z: ZoneSpec, n: string, uid: nat)
    requires StaysCheckpointed(s, n, uid)
    ensures StaysCheckpointed(ZoneCreated(s, m, z), n, uid) && StaysCheckpointed(ZoneGone(s, m), n, uid)
  {}

  /** No status write takes a checkpoint back. */
  lemma StatusKeepsCheckpoint(p: Params, s: State, author: Actor, m: string, version: nat, st: ZoneStatus)
    requires Enabled(p, s, WriteZoneStatus(author, m, version, st))
    ensures m in s.zones && (s.zones[m].status.checkpoint ==> st.checkpoint)
  {
    hide OneReady, IsReady, MapName;
  }

  lemma ZoneStepKeepsCheckpoint(p: Params, s: State, a: Action, n: string, uid: nat)
    requires VersionsOk(s) && Enabled(p, s, a) && OnZones(a) && StaysCheckpointed(s, n, uid)
    ensures StaysCheckpointed(Apply(p, s, a), n, uid)
  {
    hide Enabled, PutZone, ZoneCreated, ZoneGone, StaysCheckpointed, VersionsOk;
    match a {
      case CreateZone(m, z) => NewZoneKeepsCheckpoint(s, m, z, n, uid);
      case EditZone(m, z) =>
        if m in s.zones { PutZoneKeepsCheckpoint(s, m, s.zones[m].(spec := z, generation := s.zones[m].generation + 1), n, uid); }
      case DeleteZone(m) =>
        NewZoneKeepsCheckpoint(s, m, NoSpec(), n, uid);
        if m in s.zones { PutZoneKeepsCheckpoint(s, m, s.zones[m].(deleting := true), n, uid); }
      case WriteZoneStatus(author, m, version, st) =>
        StatusKeepsCheckpoint(p, s, author, m, version, st);
        PutZoneKeepsCheckpoint(s, m, s.zones[m].(status := st), n, uid);
      case WriteFinalizer(ZoneRef(m), _, present) =>
        NewZoneKeepsCheckpoint(s, m, NoSpec(), n, uid);
        if m in s.zones { PutZoneKeepsCheckpoint(s, m, s.zones[m].(finalizer := present), n, uid); }
    }
  }

  lemma StepKeepsCheckpoint(p: Params, s: State, a: Action, n: string, uid: nat)
    requires Inv(p, s) && Enabled(p, s, a) && StaysCheckpointed(s, n, uid)
    ensures StaysCheckpointed(Apply(p, s, a), n, uid)
  {
    hide MapsOk, ZonesOk, RecordsOk, CoreOk, VersionsOk, Enabled, Apply;
    if OnZones(a) {
      ZoneStepKeepsCheckpoint(p, s, a, n, uid);
    } else {
      StepTouches(p, s, a);
    }
  }

  /** Once checkpointed a zone stays so, and is selected by every later connector pass while it names that connector. */
  lemma {:induction false} CheckpointLasts(p: Params, start: State, trace: seq<Action>, n: string, i: nat, j: nat)
    requires Reachable(p, start, trace) && i <= j <= |trace|
    requires n in At(p, start, trace, i).zones && At(p, start, trace, i).zones[n].status.checkpoint
    ensures StaysCheckpointed(At(p, start, trace, j), n, At(p, start, trace, i).zones[n].uid)
    ensures var s, t := At(p, start, trace, i), At(p, start, trace, j);
      n in t.zones && t.zones[n].uid == s.zones[n].uid ==> Selected(t.zones[n])
    decreases j
  {
    hide Run, Initial, Legal, NamesApart, MapsOk, ZonesOk, RecordsOk, CoreOk, Enabled, Apply, Selected;
    var s, t := At(p, start, trace, i), At(p, start, trace, j);
    if i == j {
      InvAt(p, start, trace, i);
    } else {
      CheckpointLasts(p, start, trace, n, i, j - 1);
      StepAt(p, start, trace, j - 1);
      StepKeepsCheckpoint(p, At(p, start, trace, j - 1), trace[j - 1], n, s.zones[n].uid);
    }
    InvAt(p, start, trace, j);
    if n in t.zones {
      SelectedIffCheckpointed(p, t, n);
    }
  }

  lemma InvAt(p: Params, start: State, trace: seq<Action>, k: nat)
    requires Reachable(p, start, trace) && k <= |trace|
    ensures Inv(p, At(p, start, trace, k)) && Reachable(p, start, trace[..k])
  {
    hide Inv, Run, Legal, NamesApart, Initial;
    LegalPrefix(p, start, trace, k);
    RunsAreSafe(p, start, trace[..k]);
  }

  // ---- the backup ----

  /** What a step does to the backup and to the record of what users wrote. */
  ghost predicate BackupStep(s: State, a: Action, t: State) {
    && (s.backup.Some? ==> t.backup == s.backup)
    && (s.backup.None? && t.backup.Some? ==> a.CreateBackup? && a.data in s.userData && t.backup.value.data == a.data)
    && t.userData == (if a.EditCore? then s.userData + {a.data} else s.userData)
    && (a.EditCore? ==> t.core.Some? && t.core.value.data == a.data)
    && (a.WriteCorefile? || a.RestoreCore? ==> s.backup.Some?) && (a.CreateBackup? ==> s.backup.None?)
  }

  lemma SameCoreBackup(s: State, a: Action, t: State)
    requires SameCore(s, t) && !OnCore(a)
    ensures BackupStep(s, a, t)
  {}

  lemma EditBackup(s: State, data: map<string, string>)
    ensures BackupStep(s, EditCore(data), CoreEdited(s, data))
  {}

  lemma RemoveBackup(s: State)
    ensures BackupStep(s, RemoveCore, CoreRemoved(s)) && (s.backup.Some? ==> BackupStep(s, RestoreCore, CoreRestored(s)))
  {}

  lemma BackupCreated(s: State, data: map<string, string>)
    requires s.backup.None? && data in s.userData
    ensures BackupStep(s, CreateBackup(data), PutBackup(s, data))
  {}

  lemma WriteBackup(s: State, version: nat, c: ConnectorSpec, items: seq<ConfigMap>, order: seq<string>)
    requires s.core.Some? && CorefileJustified(s, c, items, order)
    ensures BackupStep(s, WriteCorefile(version, c, items, order), CorefileWritten(s, c, items, order))
  {
    hide WrittenData, ScanText, Blocks, Domains, IsOrderOf, ZoneEntryOk, GoodDomain, SafeConnector, ConnectorHeld;
  }

  lemma StepBackup(p: Params, s: State, a: Action)
    requires Enabled(p, s, a)
    ensures BackupStep(s, a, Apply(p, s, a))
  {
    hide BackupStep, SameCore, CorefileJustified, CoreEdited, CoreRemoved, PutBackup, CorefileWritten, CoreRestored;
    if !OnCore(a) {
      hide Enabled, Apply;
      SameElsewhere(p, s, a);
      SameCoreBackup(s, a, Apply(p, s, a));
    } else {
      match a {
        case EditCore(data) => EditBackup(s, data);
        case RemoveCore => RemoveBackup(s);
        case RestoreCore => RemoveBackup(s);
        case CreateBackup(data) => BackupCreated(s, data);
        case WriteCorefile(version, c, items, order) => WriteBackup(s, version, c, items, order);
      }
    }
  }

  /** The backup, once made, never changes. */
  lemma {:induction false} BackupIsPermanent(p: Params, start: State, trace: seq<Action>, i: nat, j: nat)
    requires Reachable(p, start, trace) && i <= j <= |trace| && At(p, start, trace, i).backup.Some?
    ensures At(p, start, trace, j).backup == At(p, start, trace, i).backup
  {
    hide Run, Initial, Legal, NamesApart, Inv, Enabled, Apply;
    if i < j {
      BackupIsPermanent(p, start, trace, i, j - 1);
      StepAt(p, start, trace, j - 1);
      StepBackup(p, At(p, start, trace, j - 1), trace[j - 1]);
    }
  }

  /** What users put into the CoreDNS ConfigMap was its Data at some moment. */
  lemma {:induction false} UserDataWasThere(p: Params, start: State, trace: seq<Action>, j: nat, d: map<string, string>)
    returns (k: nat)
    requires Reachable(p, start, trace) && j <= |trace| && d in At(p, start, trace, j).userData
    ensures k <= j && At(p, start, trace, k).core.Some? && At(p, start, trace, k).core.value.data == d
  {
    hide Legal, NamesApart, Inv, Enabled, Apply;
    if j == 0 {
      assert trace[..0] == [];
      k := 0;
    } else {
      hide Run, Initial;
      StepAt(p, start, trace, j - 1);
      StepBackup(p, At(p, start, trace, j - 1), trace[j - 1]);
      if d in At(p, start, trace, j - 1).userData {
        k := UserDataWasThere(p, start, trace, j - 1, d);
      } else {
        k := j;
      }
    }
  }

  /** No write of the Corefile happens before there is a backup. */
  lemma WriteFollowsBackup(p: Params, start: State, trace: seq<Action>, k: nat)
    requires Reachable(p, start, trace) && k < |trace| && trace[k].WriteCorefile?
    ensures At(p, start, trace, k).backup.Some?
  {
    hide Run, Initial, Legal, NamesApart, Inv, Enabled, Apply;
    StepAt(p, start, trace, k);
    StepBackup(p, At(p, start, trace, k), trace[k]);
  }

  lemma {:induction false} BackupMadeAt(p: Params, start: State, trace: seq<Action>, j: nat) returns (m: nat)
    requires Reachable(p, start, trace) && j <= |trace| && At(p, start, trace, j).backup.Some?
    ensures m < j && trace[m].CreateBackup? && At(p, start, trace, m).backup.None?
    ensures trace[m].data in At(p, start, trace, m).userData && At(p, start, trace, j).backup.value.data == trace[m].data
  {
    hide Run, Legal, NamesApart, Inv, Enabled, Apply;
    StartsAt(p, start, trace);
    StepAt(p, start, trace, j - 1);
    StepBackup(p, At(p, start, trace, j - 1), trace[j - 1]);
    if At(p, start, trace, j - 1).backup.Some? {
      m := BackupMadeAt(p, start, trace, j - 1);
    } else {
      m := j - 1;
    }
  }

  /**
   * The backup holds what users had put into the CoreDNS ConfigMap: its Data was that of the
   * backup at a moment k, and the operator had not written the Corefile before that moment,
   * nor before the backup was made.
   */
  lemma BackupIsPristine(p: Params, start: State, trace: seq<Action>) returns (k: nat, m: nat)
    requires Reachable(p, start, trace) && Run(p, start, trace).backup.Some?
    ensures k <= m < |trace| && trace[m].CreateBackup? && (forall i :: 0 <= i <= m ==> !trace[i].WriteCorefile?)
    ensures At(p, start, trace, k).core.Some?
    ensures At(p, start, trace, k).core.value.data == trace[m].data == Run(p, start, trace).backup.value.data
  {
    hide Run, Initial, Legal, NamesApart, Inv;
    AtEnd(p, start, trace);
    m := BackupMadeAt(p, start, trace, |trace|);
    k := UserDataWasThere(p, start, trace, m, trace[m].data);
    forall i | 0 <= i <= m ensures !trace[i].WriteCorefile? {
      if trace[i].WriteCorefile? {
        WriteFollowsBackup(p, start, trace, i);
        BackupIsPermanent(p, start, trace, i, m);
      }
    }
  }

  // ---- what users and restores left, read off the run alone ----

  /** The Data of the first backup. */
  function FirstBackup(trace: seq<Action>): Option<map<string, string>> {
    if trace == [] then None
    else
      var before, last := FirstBackup(trace[..|trace| - 1]), trace[|trace| - 1];
      if before.None? && last.CreateBackup? then Some(last.data) else before
  }

  function DataIn(core: Option<ConfigMap>): Option<map<string, string>> {
    if core.Some? then Some(core.value.data) else None
  }

  function NextBasis(a: Action, basis: Option<map<string, string>>, backup: Option<map<string, string>>)
    : Option<map<string, string>> {
    match a
    case EditCore(data) => Some(data)
    case RemoveCore => None
    case RestoreCore => backup
    case _ => basis
  }

  /** The Data users last gave the CoreDNS ConfigMap, or a restore gave it back since; splices do not show. */
  function Basis(start: State, trace: seq<Action>): Option<map<string, string>> {
    if trace == [] then DataIn(start.core)
    else
      var init := trace[..|trace| - 1];
      NextBasis(trace[|trace| - 1], Basis(start, init), FirstBackup(init))
  }

  function NextSplices(a: Action, key: string, n: nat): nat {
    if a.EditCore? || a.RemoveCore? || a.RestoreCore? then 0
    else if a.WriteCorefile? && a.conn.corefileKey == key then n + 1
    else n
  }

  /** The splices of a Corefile since then. */
  function Splices(trace: seq<Action>, key: string): nat {
    if trace == [] then 0 else NextSplices(trace[|trace| - 1], key, Splices(trace[..|trace| - 1], key))
  }

  lemma {:induction false} FirstBackupIs(p: Params, start: State, trace: seq<Action>)
    requires Reachable(p, start, trace)
    ensures DataIn(Run(p, start, trace).backup) == FirstBackup(trace)
  {
    if trace != [] {
      hide Inv, Enabled, Apply, Initial, NamesApart;
      var init, last := trace[..|trace| - 1], trace[|trace| - 1];
      FirstBackupIs(p, start, init);
      StepBackup(p, Run(p, start, init), last);
      BackupAppears(p, Run(p, start, init), last);
    }
  }

  lemma BackupAppears(p: Params, s: State, a: Action)
    ensures a.CreateBackup? ==> Apply(p, s, a).backup.Some?
  {}

  /** What a step does to the CoreDNS ConfigMap. */
  ghost predicate CoreStep(s: State, a: Action, t: State) {
    && (a.EditCore? ==> DataIn(t.core) == Some(a.data) && t.coreWritten == s.coreWritten)
    && (a.RemoveCore? ==> t.core.None? && t.coreWritten == s.coreWritten)
    && (a.RestoreCore? && s.backup.Some? ==> DataIn(t.core) == DataIn(s.backup) && !t.coreWritten)
    && (a.CreateBackup? || !OnCore(a) ==> t.core == s.core && t.coreWritten == s.coreWritten)
    && (a.WriteCorefile? && s.core.Some? && CorefileJustified(s, a.conn, a.items, a.order) ==>
          t.coreWritten && DataIn(t.core) == Some(WrittenData(s, a.conn, a.items, a.order)))
  }

  lemma UserCoreStep(s: State, data: map<string, string>)
    ensures CoreStep(s, EditCore(data), CoreEdited(s, data)) && CoreStep(s, RemoveCore, CoreRemoved(s))
    ensures CoreStep(s, RestoreCore, CoreRestored(s)) && CoreStep(s, CreateBackup(data), PutBackup(s, data))
  {}

  lemma SpliceCoreStep(s: State, version: nat, c: ConnectorSpec, items: seq<ConfigMap>, order: seq<string>)
    ensures CoreStep(s, WriteCorefile(version, c, items, order), CorefileWritten(s, c, items, order))
  {
    hide CorefileJustified, WrittenData;
  }

  lemma OtherCoreStep(s: State, a: Action, t: State)
    requires !OnCore(a) && SameCore(s, t)
    ensures CoreStep(s, a, t)
  {}

  lemma StepCore(p: Params, s: State, a: Action)
    ensures CoreStep(s, a, Apply(p, s, a))
  {
    hide CoreStep, SameCore, CoreEdited, CoreRemoved, CoreRestored, PutBackup, CorefileWritten;
    if !OnCore(a) {
      hide Apply;
      SameElsewhere(p, s, a);
      OtherCoreStep(s, a, Apply(p, s, a));
    } else {
      match a {
        case EditCore(data) => UserCoreStep(s, data);
        case RemoveCore => UserCoreStep(s, map[]);
        case RestoreCore => UserCoreStep(s, map[]);
        case CreateBackup(data) => UserCoreStep(s, data);
        case WriteCorefile(version, c, items, order) => SpliceCoreStep(s, version, c, items, order);
      }
    }
  }

  /** The operator's splices apart, the ConfigMap holds what the run says users and restores left. */
  lemma {:induction false} UnwrittenIsBasis(p: Params, start: State, trace: seq<Action>)
    requires Reachable(p, start, trace)
    ensures var s := Run(p, start, trace);
      !s.coreWritten ==> DataIn(s.core) == Basis(start, trace)
  {
    if trace != [] {
      hide Inv, Enabled, Apply, Initial, NamesApart, CorefileJustified, WrittenData;
      var init, last := trace[..|trace| - 1], trace[|trace| - 1];
      var s := Run(p, start, init);
      UnwrittenIsBasis(p, start, init);
      FirstBackupIs(p, start, init);
      StepBackup(p, s, last);
      StepCore(p, s, last);
      if last.WriteCorefile? {
        JustifiedWrite(p, s, last);
      }
    }
  }

  lemma JustifiedWrite(p: Params, s: State, a: Action)
    requires Enabled(p, s, a) && a.WriteCorefile?
    ensures s.core.Some? && CorefileJustified(s, a.conn, a.items, a.order)
  {
    hide CorefileJustified;
  }

  /**
   * The backup is made from what was read at the start of the pass. It equals the ConfigMap's
   * Data at the moment it is made exactly if that is what users left there last ...
   */
  lemma BackupAgrees(p: Params, start: State, trace: seq<Action>)
    requires Reachable(p, start, trace) && trace != [] && trace[|trace| - 1].CreateBackup?
    ensures var s := Run(p, start, trace);
      && s.backup.Some?
      && (DataIn(s.core) == DataIn(s.backup) <==> Basis(start, trace) == Some(trace[|trace| - 1].data))
  {
    hide Inv, Initial, NamesApart, Apply;
    var init, last := trace[..|trace| - 1], trace[|trace| - 1];
    var s := Run(p, start, init);
    StepBackup(p, s, last);
    BackupAppears(p, s, last);
    StepCore(p, s, last);
    UnwrittenIsBasis(p, start, trace);
    RunsAreSafe(p, start, init);
    NotYetWritten(p, s);
  }

  lemma NotYetWritten(p: Params, s: State)
    requires Inv(p, s) && s.backup.None?
    ensures !s.coreWritten
  {
    hide MapsOk, ZonesOk, RecordsOk, VersionsOk, SafeConnector, ConnectorHeld;
  }

  /** ... which they need not have: here an edit falls between the read and the backup. */
  lemma BackupRace(p: Params) returns (start: State, trace: seq<Action>)
    requires NamesApart(p)
    ensures Reachable(p, start, trace) && trace != [] && trace[|trace| - 1].CreateBackup?
    ensures var s := Run(p, start, trace);
      s.backup.Some? && s.core.Some? && s.backup.value.data == map["Corefile" := "a"] && s.core.value.data == map["Corefile" := "b"]
  {
    var a, b := map["Corefile" := "a"], map["Corefile" := "b"];
    var conn := ConnectorSpec("Corefile", "", []);
    start := State(1, map[], map[], map[], None, Some(ConfigMap(0, "coredns", 0, false, map[], a)), None, None, {a}, false);
    var none: seq<Action> := [];
    var t1 := none + [CreateConnector("c", conn)];
    var t2 := t1 + [WriteFinalizer(ConnectorRef, 1, true)];
    var t3 := t2 + [EditCore(b)];
    trace := t3 + [CreateBackup(a)];
    RaceSteps(p, start, conn, a, b);
    hide Legal, Run, Enabled, Apply, Initial, NamesApart;
    LegalMore(p, start, none, CreateConnector("c", conn));
    LegalMore(p, start, t1, WriteFinalizer(ConnectorRef, 1, true));
    LegalMore(p, start, t2, EditCore(b));
    LegalMore(p, start, t3, CreateBackup(a));
  }

  lemma LegalMore(p: Params, start: State, trace: seq<Action>, a: Action)
    requires Legal(p, start, trace)
    ensures Enabled(p, Run(p, start, trace), a) ==> Legal(p, start, trace + [a])
    ensures Run(p, start, trace + [a]) == Apply(p, Run(p, start, trace), a)
  {
    hide Enabled, Apply;
    assert (trace + [a])[..|trace|] == trace;
  }

  lemma RaceSteps(p: Params, start: State, conn: ConnectorSpec, a: map<string, string>, b: map<string, string>)
    requires conn == ConnectorSpec("Corefile", "", []) && a == map["Corefile" := "a"] && b == map["Corefile" := "b"]
    requires var core := Some(ConfigMap(0, "coredns", 0, false, map[], a));
      start == State(1, map[], map[], map[], None, core, None, None, {a}, false)
    ensures Legal(p, start, []) && Run(p, start, []) == start && Initial(start)
    ensures Enabled(p, start, CreateConnector("c", conn))
    ensures var s1 := Apply(p, start, CreateConnector("c", conn));
      && Enabled(p, s1, WriteFinalizer(ConnectorRef, 1, true))
      && var s2 := Apply(p, s1, WriteFinalizer(ConnectorRef, 1, true));
         && Enabled(p, s2, EditCore(b))
         && var s3 := Apply(p, s2, EditCore(b));
            && Enabled(p, s3, CreateBackup(a))
            && var s4 := Apply(p, s3, CreateBackup(a));
               && s4.core.Some? && s4.core.value.data == b && s4.backup.Some? && s4.backup.value.data == a
  {
    assert a["Corefile"] != b["Corefile"];
  }

  // ---- the restored Corefile ----

  /**
   * Restored: in every reachable state without a connector that holds the finalizer, the CoreDNS
   * ConfigMap is exactly what users and restores left. So it holds the backup's Data if and only
   * if users did not put anything else there since the last restore.
   */
  lemma GoneMeansRestored(p: Params, start: State, trace: seq<Action>)
    requires Reachable(p, start, trace) && !ConnectorHeld(Run(p, start, trace))
    ensures var s := Run(p, start, trace);
      && DataIn(s.core) == Basis(start, trace) && DataIn(s.backup) == FirstBackup(trace)
      && (DataIn(s.core) == DataIn(s.backup) <==> Basis(start, trace) == FirstBackup(trace))
  {
    hide Run, Initial, Legal, NamesApart, MapsOk, ZonesOk, RecordsOk, VersionsOk, SafeConnector, ConnectorHeld;
    AtEnd(p, start, trace);
    UnwrittenIsBasis(p, start, trace);
    FirstBackupIs(p, start, trace);
  }

  /** A held connector is never released while there is no backup. */
  lemma {:induction false} HeldUntilBackup(p: Params, start: State, trace: seq<Action>, i: nat, j: nat)
    requires Reachable(p, start, trace) && i <= j <= |trace| && ConnectorHeld(At(p, start, trace, i))
    requires At(p, start, trace, j).backup.None?
    ensures ConnectorHeld(At(p, start, trace, j))
    ensures At(p, start, trace, i).connector.value.deleting ==> At(p, start, trace, j).connector.value.deleting
  {
    hide Run, Initial, Legal, NamesApart, Inv, Enabled, Apply, ConnectorHeld;
    if i < j {
      var s, a := At(p, start, trace, j - 1), trace[j - 1];
      StepAt(p, start, trace, j - 1);
      StepBackup(p, s, a);
      HeldUntilBackup(p, start, trace, i, j - 1);
      StepHolds(p, s, a);
    }
  }

  lemma StepHolds(p: Params, s: State, a: Action)
    requires Enabled(p, s, a) && ConnectorHeld(s) && s.backup.None?
    ensures ConnectorHeld(Apply(p, s, a)) && (s.connector.value.deleting ==> Apply(p, s, a).connector.value.deleting)
  {
    hide Enabled, Apply;
    if ActorOf(a) != ConnectorController || Harmless(a) {
      hide SameCore;
      ConnectorStaysStep(p, s, a);
    } else if a.WriteFinalizer? {
      hide ConnectorHeld;
      FinalizerNeedsBackup(p, s, a);
    } else {
      hide ConnectorHeld;
      SameElsewhere(p, s, a);
      StillHeld(s, Apply(p, s, a));
    }
  }

  lemma StillHeld(s: State, t: State)
    requires t.connector == s.connector && ConnectorHeld(s)
    ensures ConnectorHeld(t)
  {}

  lemma FinalizerNeedsBackup(p: Params, s: State, a: Action)
    requires Enabled(p, s, a) && a.WriteFinalizer? && a.ref.ConnectorRef? && ConnectorHeld(s) && s.backup.None?
    ensures ConnectorHeld(Apply(p, s, a)) && (s.connector.value.deleting ==> Apply(p, s, a).connector.value.deleting)
  {}

  // ---- a connector that is gone ----

  /** The connector is the same object, or gone, or a new one. */
  predicate SameOrNew(s: State, t: State) {
    && s.next <= t.next
    && (t.connector.Some? ==>
          (s.connector.Some? && t.connector.value.uid == s.connector.value.uid) || t.connector.value.uid >= s.next)
  }

  lemma ConnectorChanges(s: State, n: string, c: ConnectorSpec, st: ConnectorStatus, present: bool)
    ensures SameOrNew(s, ConnectorCreated(s, n, c)) && SameOrNew(s, ConnectorEdited(s, c))
    ensures SameOrNew(s, ConnectorDeleted(s)) && SameOrNew(s, ConnectorFinalizerSet(s, present))
    ensures SameOrNew(s, ConnectorStatusSet(s, st))
  {}

  lemma StepSameOrNew(p: Params, s: State, a: Action)
    ensures SameOrNew(s, Apply(p, s, a))
  {
    hide Fresh, SameOrNew, ConnectorCreated, ConnectorEdited, ConnectorDeleted, ConnectorFinalizerSet,
      ConnectorStatusSet;
    if OnConnector(a) {
      match a {
        case CreateConnector(n, c) => ConnectorChanges(s, n, c, ConnectorStatus([], []), true);
        case EditConnector(c) => ConnectorChanges(s, "", c, ConnectorStatus([], []), true);
        case DeleteConnector => ConnectorChanges(s, "", ConnectorSpec("", "", []), ConnectorStatus([], []), true);
        case WriteConnectorStatus(_, st) => ConnectorChanges(s, "", ConnectorSpec("", "", []), st, true);
        case WriteFinalizer(ConnectorRef, _, present) =>
          ConnectorChanges(s, "", ConnectorSpec("", "", []), ConnectorStatus([], []), present);
      }
    } else {
      hide Apply;
      SameElsewhere(p, s, a);
      StepTouches(p, s, a);
      SameConnector(s, Apply(p, s, a));
    }
  }

  lemma SameConnector(s: State, t: State)
    requires t.connector == s.connector && Fresh(s, t)
    ensures SameOrNew(s, t)
  {}

  /** An object that is gone does not come back: a connector created later has another uid. */
  lemma {:induction false} GoneForGood(p: Params, start: State, mid: seq<Action>, after: seq<Action>, uid: nat)
    requires mid <= after && uid < Run(p, start, mid).next
    requires var s := Run(p, start, mid); s.connector.Some? ==> s.connector.value.uid != uid
    ensures var t := Run(p, start, after); uid < t.next && (t.connector.Some? ==> t.connector.value.uid != uid)
  {
    hide Apply;
    if mid != after {
      var init := after[..|after| - 1];
      GoneForGood(p, start, mid, init, uid);
      StepSameOrNew(p, Run(p, start, init), after[|after| - 1]);
    }
  }

  lemma {:induction false} NextGrows(p: Params, start: State, mid: seq<Action>, after: seq<Action>)
    requires mid <= after
    ensures Run(p, start, mid).next <= Run(p, start, after).next
  {
    hide Apply;
    if mid != after {
      var init := after[..|after| - 1];
      NextGrows(p, start, mid, init);
      StepSameOrNew(p, Run(p, start, init), after[|after| - 1]);
    }
  }

  // ---- the user's lines ----

  /**
   * Under this key the ConfigMap holds the basis, spliced n times: the lines outside the managed
   * blocks are those of the basis in order, then n blank lines.
   */
  ghost predicate Grown(core: Option<ConfigMap>, base: map<string, string>, key: string, n: nat) {
    && core.Some? && core.value.data.Keys == base.Keys
    && (key in base ==>
          && (n == 0 ==> core.value.data[key] == base[key])
          && (Tidy(base[key]) ==>
                && Tidy(core.value.data[key])
                && Unmanaged(core.value.data[key]) == Unmanaged(base[key]) + seq(n, _ => "")))
  }

  lemma NotSplicedYet(core: Option<ConfigMap>, key: string)
    requires core.Some?
    ensures Grown(core, core.value.data, key, 0)
  {
    hide Tidy, Unmanaged;
    if key in core.value.data {
      assert Unmanaged(core.value.data[key]) + seq(0, _ => "") == Unmanaged(core.value.data[key]);
    }
  }

  lemma SpliceGrows(s: State, t: State, base: map<string, string>, key: string, n: nat,
                    c: ConnectorSpec, items: seq<ConfigMap>, order: seq<string>)
    requires Grown(s.core, base, key, n) && CorefileJustified(s, c, items, order)
    requires DataIn(t.core) == Some(WrittenData(s, c, items, order))
    ensures Grown(t.core, base, key, if c.corefileKey == key then n + 1 else n)
  {
    hide Tidy, Unmanaged, SafeConnector, GoodDomain, ScanText, IsOrderOf, Blocks, Domains, Spliced, ZoneEntryOk;
    if c.corefileKey == key && key in base && Tidy(base[key]) {
      TidyPass(s.core.value.data[key], c, Domains(items), order);
      assert Unmanaged(base[key]) + seq(n, _ => "") + [""] == Unmanaged(base[key]) + seq(n + 1, _ => "");
    }
  }

  ghost predicate GrownFrom(core: Option<ConfigMap>, basis: Option<map<string, string>>, key: string, n: nat) {
    match basis
    case None => core.None?
    case Some(base) => Grown(core, base, key, n)
  }

  lemma StepGrows(p: Params, s: State, a: Action, basis: Option<map<string, string>>, key: string, n: nat)
    requires Enabled(p, s, a) && GrownFrom(s.core, basis, key, n)
    ensures GrownFrom(Apply(p, s, a).core, NextBasis(a, basis, DataIn(s.backup)), key, NextSplices(a, key, n))
  {
    hide Enabled, Apply, Grown, CorefileJustified, WrittenData;
    var t := Apply(p, s, a);
    StepBackup(p, s, a);
    StepCore(p, s, a);
    if a.EditCore? || a.RestoreCore? {
      NotSplicedYet(t.core, key);
    } else if a.WriteCorefile? {
      JustifiedWrite(p, s, a);
      SpliceGrows(s, t, basis.value, key, n, a.conn, a.items, a.order);
    }
  }

  /**
   * In every reachable state the CoreDNS ConfigMap is the one users and restores left, with its
   * Corefile spliced as often as the run says: no key is lost or added, a text never spliced is
   * unchanged, and outside the managed blocks a spliced one has the lines of that basis in order,
   * followed by exactly one blank line per splice.
   */
  lemma {:induction false} UserLinesSurvive(p: Params, start: State, trace: seq<Action>, key: string)
    requires Reachable(p, start, trace)
    ensures GrownFrom(Run(p, start, trace).core, Basis(start, trace), key, Splices(trace, key))
  {
    hide Grown;
    if trace == [] {
      if start.core.Some? {
        NotSplicedYet(start.core, key);
      }
    } else {
      hide Inv, Enabled, Apply, Initial, NamesApart, GrownFrom, NextBasis, NextSplices;
      var init, last := trace[..|trace| - 1], trace[|trace| - 1];
      UserLinesSurvive(p, start, init, key);
      FirstBackupIs(p, start, init);
      StepGrows(p, Run(p, start, init), last, Basis(start, init), key, Splices(init, key));
    }
  }

  /** From a marker-free text, then, all its lines survive, whatever passes there have been. */
  lemma PlainTextSurvives(p: Params, start: State, trace: seq<Action>, key: string)
    requires Reachable(p, start, trace) && Basis(start, trace).Some?
    requires key in Basis(start, trace).value && MarkerFree(Basis(start, trace).value[key])
    ensures var s := Run(p, start, trace);
      && s.core.Some? && key in s.core.value.data
      && Descends(Basis(start, trace).value[key], s.core.value.data[key], Splices(trace, key))
  {
    hide Initial, Legal, NamesApart, MarkerFree, EndsInBlock, DoubleSpaced, Unmanaged, Run, Basis, Splices;
    UserLinesSurvive(p, start, trace, key);
    MarkerFreeTidy(Basis(start, trace).value[key]);
  }
}
