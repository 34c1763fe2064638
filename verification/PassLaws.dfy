/** What a completed pass of the zone or connector controller means for what CoreDNS serves. */
module PassLaws {
  import opened Text
  import opened Objects
  import opened Corefile
  import opened CorefileLaws
  import opened PodTemplate
  import opened PodTemplateLaws
  import opened ZoneFile
  import opened ZoneFileLaws
  import opened Cluster
  import opened Invariants
  import opened Safety
  import opened ConnectorSpecs
  import opened ConnectorReconciler
  import Z = ZoneReconciler
  import opened Api

  // ---- records marked ready are in the stored zone ----

  /** The block of lines of `part` at line k of a text. */
  predicate BlockAt(lines: seq<string>, part: seq<string>, k: nat) {
    k + |part| <= |lines| && lines[k..k + |part|] == part
  }

  lemma WholeBlock(part: seq<string>, rest: seq<string>)
    ensures BlockAt(part + rest, part, 0) && part + [] == part && (part + rest)[|part|..] == rest
  {}

  lemma BlockBelow(lines: seq<string>, rest: seq<string>, part: seq<string>, above: nat, below: nat)
    requires above <= |lines| && lines[above..] == rest && BlockAt(rest, part, below)
    ensures BlockAt(lines, part, above + below)
  {
    assert rest[below..below + |part|] == lines[above + below..above + below + |part|];
  }

  lemma {:induction false} JoinKeepsBlock(parts: seq<string>, i: nat) returns (k: nat)
    requires i < |parts|
    ensures BlockAt(Split(Join(parts, '\n'), '\n'), Split(parts[i], '\n'), k)
  {
    hide Split, BlockAt;
    k := 0;
    if |parts| == 1 {
      WholeBlock(Split(parts[0], '\n'), []);
    } else {
      var rest := Join(parts[1..], '\n');
      SplitAppend(parts[0], '\n', rest);
      WholeBlock(Split(parts[0], '\n'), Split(rest, '\n'));
      if i > 0 {
        var below := JoinKeepsBlock(parts[1..], i - 1);
        k := |Split(parts[0], '\n')| + below;
        BlockBelow(Split(Join(parts, '\n'), '\n'), Split(rest, '\n'), Split(parts[i], '\n'), |Split(parts[0], '\n')|, below);
      }
    }
  }

  lemma {:induction false} GeneratedAt(records: seq<DNSRecord>, i: nat)
    requires i < |records|
    ensures |Generated(records)| == |records| && Generated(records)[i] == records[i].status.generatedRecord
  {
    GeneratedCount(records);
    GeneratedCount(records[..|records| - 1]);
    if i < |records| - 1 {
      GeneratedAt(records[..|records| - 1], i);
    }
  }

  /** The lines of the records section end the printed file, whatever the header holds. */
  lemma RecordLinesPrinted(z: ZoneSpec, records: string, serial: string) returns (above: nat)
    ensures var lines := Split(ConstructZoneFile(z, records, serial), '\n');
      above <= |lines| && lines[above..] == Split(records, '\n')
  {
    hide Unlines;
    var lines := HeaderLines(HeaderOf(z), serial);
    UnlinesLast(lines);
    assert ConstructZoneFile(z, records, serial) == Join(lines, '\n') + ['\n'] + records;
    SplitAppend(Join(lines, '\n'), '\n', records);
    above := |Split(Join(lines, '\n'), '\n')|;
  }

  predicate AllVisible(lines: seq<string>, part: seq<string>, k: nat)
    requires k + |part| <= |lines|
  {
    forall m :: 0 <= m < |part| ==> Visible(lines[k + m]) && Visible(part[m])
  }

  /** Line by line the same, as far as the comparison can see; so exactly the same if it sees all of it. */
  ghost predicate AgreesAt(lines: seq<string>, part: seq<string>, k: nat) {
    && k + |part| <= |lines|
    && (forall m :: 0 <= m < |part| ==> Confused(lines[k + m], part[m]))
    && (AllVisible(lines, part, k) ==> BlockAt(lines, part, k))
  }

  /**
   * The record's text is in the zone file: its lines, in one piece. A line may differ from the
   * record's only if both hold the word of the comparison, and only behind a tab.
   */
  ghost predicate ServedAt(file: string, record: string, k: nat) {
    AgreesAt(Split(file, '\n'), Split(record, '\n'), k)
  }

  lemma ConfusedAgrees(lines: seq<string>, part: seq<string>, k: nat)
    requires k + |part| <= |lines| && forall m :: 0 <= m < |part| ==> Confused(lines[k + m], part[m])
    ensures AgreesAt(lines, part, k)
  {
    hide Visible, Confused;
    if AllVisible(lines, part, k) {
      forall m | 0 <= m < |part| ensures lines[k..k + |part|][m] == part[m] {
        VisibleNotConfused(lines[k + m], part[m]);
      }
      assert lines[k..k + |part|] == part;
    }
  }

  lemma SameStrippedBlock(stored: string, printed: string, record: string, k: nat)
    requires StripText(stored) == StripText(printed) && BlockAt(Split(printed, '\n'), Split(record, '\n'), k)
    ensures ServedAt(stored, record, k)
  {
    hide StripText, StripLine, Confused, AgreesAt;
    StripTextIff(stored, printed);
    var a, b, part := Split(stored, '\n'), Split(printed, '\n'), Split(record, '\n');
    assert |a| == |StripLines(a)| == |b|;
    forall m | 0 <= m < |part| ensures Confused(a[k + m], part[m]) {
      assert StripLines(a)[k + m] == StripLine(a[k + m]) && StripLines(b)[k + m] == StripLine(b[k + m]);
      assert b[k + m] == b[k..k + |part|][m];
      StripConfuses(a[k + m], part[m]);
    }
    ConfusedAgrees(a, part, k);
  }

  /**
   * On the write exit and on the "no changes" exit alike, the text of every record that the pass
   * then marks ready is in the stored zone file: exactly on the first, up to what the comparison
   * cannot see on the second.
   */
  lemma ReadyRecordsAreServed(z: ZoneSpec, good: seq<DNSRecord>, serial: string, stored: map<string, string>, i: nat)
    returns (k: nat)
    requires i < |good|
    requires var printed := ZoneData(z, Join(Generated(good), '\n'), serial);
      stored == printed || StripData(stored) == StripData(printed)
    ensures ZoneFileKey(z.domain) in stored && ServedAt(stored[ZoneFileKey(z.domain)], good[i].status.generatedRecord, k)
    ensures stored == ZoneData(z, Join(Generated(good), '\n'), serial) ==>
      BlockAt(Split(stored[ZoneFileKey(z.domain)], '\n'), Split(good[i].status.generatedRecord, '\n'), k)
  {
    hide StripText, ConstructZoneFile, ZoneFileKey, ServedAt;
    var records, key := Join(Generated(good), '\n'), ZoneFileKey(z.domain);
    var text, record := ConstructZoneFile(z, records, serial), good[i].status.generatedRecord;
    GeneratedAt(good, i);
    var below := JoinKeepsBlock(Generated(good), i);
    var above := RecordLinesPrinted(z, records, serial);
    k := above + below;
    BlockBelow(Split(text, '\n'), Split(records, '\n'), Split(record, '\n'), above, below);
    var printed := ZoneData(z, records, serial);
    assert key in printed && key in StripData(printed);
    assert key in StripData(stored) && StripData(stored)[key] == StripData(printed)[key];
    SameStrippedBlock(stored[key], text, record, k);
  }

  /**
   * At the end of a pass of the zone controller that went through, therefore: the ConfigMap holds
   * the text of every record that was marked ready. The exceptions are the refused zone file, and
   * a ConfigMap of an earlier object of this name that waits for the collector.
   */
  lemma PassServesRecords(p: Params, s: State, zone: DNSZone, serial: string, now: int, x: Z.Printing, i: nat) returns (k: nat)
    requires Z.Printed(p, s, zone, serial, now, Done, x) && i < |x.good|
    requires x.cm != Z.Rejected && (x.cm == Z.Same ==> x.stored.Some? && x.stored.value.owner == zone.uid)
    ensures |x.marks| == |x.good|
    ensures x.marks[i].WriteRecordStatus? && x.marks[i].name == x.good[i].name && IsReady(x.marks[i].recordStatus.conditions)
    ensures var c, key := MapName(p, zone.name), ZoneFileKey(zone.spec.domain);
      && c in s.maps && key in s.maps[c].data
      && ServedAt(s.maps[c].data[key], x.good[i].status.generatedRecord, k)
      && (x.cm == Z.Written ==> BlockAt(Split(s.maps[c].data[key], '\n'), Split(x.good[i].status.generatedRecord, '\n'), k))
  {
    hide StripData, ZoneData, ServedAt, BlockAt, ZoneFileKey, MapName, Z.Completed, Z.Refused, Z.Marked, Z.Decides,
      IsReady;
    SaysReady(x.marks[i].recordStatus.conditions, true, x.seen[i].generation);
    k := ReadyRecordsAreServed(zone.spec, x.good, serial, s.maps[MapName(p, zone.name)].data, i);
  }

  // ---- an active connector tells the truth ----

  function ReportedDomains(zones: seq<ProvisionedZone>): set<string> {
    set z <- zones :: z.domain
  }

  lemma ProvisionedDomains(items: seq<ConfigMap>)
    requires forall cm <- items :: Annotated(cm) && ZoneEntryOk(cm)
    ensures ReportedDomains(Provisioned(items)) == Domains(items)
  {
    hide VolumeEntryOk, ZoneFileKey;
    var stats := Provisioned(items);
    forall d <- Domains(items) ensures d in ReportedDomains(stats) {
      var cm :| cm in items && ZoneEntryOk(cm) && d == cm.annotations["DomainName"];
      var i :| 0 <= i < |items| && items[i] == cm;
      assert stats[i] in stats;
    }
    forall z <- stats ensures z.domain in Domains(items) {
      var i :| 0 <= i < |stats| && stats[i] == z;
      assert items[i] in items;
    }
  }

  /** The reported zone is the ConfigMap's, and its serial is the SOA serial of the validated text in it. */
  ghost predicate ReportsTrue(p: Params, cm: ConfigMap, reported: ProvisionedZone) {
    && Genuine(p, cm) && ZoneMapOk(cm) && reported.domain == DomainOf(cm) && MapName(p, reported.name) == cm.name
    && p.validate(cm.data[ZoneFileKey(DomainOf(cm))])
    && reported.serial == SoaSerial(cm.data[ZoneFileKey(DomainOf(cm))])
  }

  lemma SerialsAgree(p: Params, cm: ConfigMap)
    requires Genuine(p, cm)
    ensures Complete(cm) && ReportsTrue(p, cm, ProvisionedOf(cm))
  {
    hide SelfConsistent, SoaSerial, ZoneFileKey, MapName;
    ConsistentFacts(p, cm.name, cm);
    ConsistentName(p, cm.name, cm);
  }

  /**
   * Active is truthful: the reported domains are exactly those of the managed blocks in the
   * Corefile of the plan, one block each, and every reported serial is the SOA serial of a
   * validated zone file in the ConfigMaps that were fetched.
   */
  ghost predicate TellsTruth(p: Params, conn: ConnectorSpec, plan: Plan, reported: ConnectorStatus) {
    && IsReady(reported.conditions)
    && Respliceable(conn, plan.core, plan.items, plan.corefileOrder)
    && ReadBlocks(CorefileOf(conn, plan)) == Some(ManagedBlocks(conn, plan.corefileOrder))
    && IsOrderOf(plan.corefileOrder, ReportedDomains(reported.provisioned))
    && |reported.provisioned| == |plan.items|
    && forall i :: 0 <= i < |plan.items| ==> ReportsTrue(p, plan.items[i], reported.provisioned[i])
  }

  /** So it is when a pass reaches Active, unless the Corefile that was read has hand-made or broken markers. */
  lemma ActiveIsTruthful(p: Params, conn: DNSConnector, stamp: string, now: int, plan: Plan, log: PassLog)
    requires PlanOk(p, conn.spec, stamp, plan) && LogOk(conn, plan, now, log) && SafeConnector(conn.spec)
    requires conn.spec.corefileKey in plan.core.data && Tidy(plan.core.data[conn.spec.corefileKey])
    ensures TellsTruth(p, conn.spec, plan, log.final)
  {
    hide Tidy, SafeConnector, IsReady, Genuine, ZoneMapOk, Complete, ZoneEntryOk, VolumeEntryOk, ReadBlocks, ManagedBlocks,
      Spliced, ScanText, IsOrderOf, Domains, Blocks, GoodDomain, Remounted, ReportedDomains, SeenAgain, ReportsTrue, Updating;
    NoConnectorErrors(p, plan.zones, plan.items);
    SpliceExact(plan.core.data[conn.spec.corefileKey], conn.spec, Domains(plan.items), plan.corefileOrder);
    ProvisionedDomains(plan.items);
    forall i | 0 <= i < |plan.items| ensures ReportsTrue(p, plan.items[i], log.final.provisioned[i]) {
      assert plan.items[i] in plan.items;
      SerialsAgree(p, plan.items[i]);
    }
  }

  /**
   * For any pass of the connector controller that went through: there is a moment in it at which
   * it is enough that the Corefile users or a restore last put there has no such markers.
   */
  lemma ActiveInRun(p: Params, start: State, before: seq<Action>, after: seq<Action>, conn: DNSConnector, stamp: string, now: int,
                    x: Serving) returns (mid: seq<Action>)
    requires Reachable(p, start, after) && SafeConnector(conn.spec)
    requires Served(p, conn, stamp, now, Done, x) && ServedWithin(p, start, before, x, after)
    ensures before <= mid <= after && x.plan.Some? && Run(p, start, mid).core == Some(x.plan.value.core)
    ensures (Basis(start, mid).Some? && conn.spec.corefileKey in Basis(start, mid).value ==>
               Tidy(Basis(start, mid).value[conn.spec.corefileKey]))
      ==> TellsTruth(p, conn.spec, x.plan.value, x.log.final)
  {
    hide Initial, Legal, Run, Tidy, Unmanaged, Basis, Splices, PlanOk, LogOk, Staged, GoodZones, SafeConnector,
      TellsTruth;
    mid :| before <= mid <= after && Run(p, start, mid) == x.read;
    LegalPrefix(p, start, after, |mid|);
    assert after[..|mid|] == mid;
    UserLinesSurvive(p, start, mid, conn.spec.corefileKey);
    PlanRespliceable(p, conn.spec, stamp, x.plan.value);
    KeyThere(conn.spec, x.plan.value);
    if Tidy(x.plan.value.core.data[conn.spec.corefileKey]) {
      ActiveIsTruthful(p, conn, stamp, now, x.plan.value, x.log);
    }
  }

  lemma KeyThere(conn: ConnectorSpec, plan: Plan)
    requires Respliceable(conn, plan.core, plan.items, plan.corefileOrder)
    ensures conn.corefileKey in plan.core.data
  {
    hide IsOrderOf, ScanText, Blocks, ZoneEntryOk;
  }

  /** And the file of each of these blocks is mounted into every container and backed by the zone's own ConfigMap. */
  lemma BlocksAreMounted(p: Params, conn: ConnectorSpec, stamp: string, plan: Plan)
    requires (forall cm <- plan.items :: ZoneEntryOk(cm) && VolumeEntryOk(cm)) && |plan.workload.template.containers| > 0
    requires PlanOk(p, conn, stamp, plan) && CollisionFree(Domains(plan.items))
    requires CoherentVolumes(plan.workload.template.volumes, DesiredOf(plan.items))
    requires CoherentMounts(plan.workload.template.containers[0].mounts, conn.mountDir, DesiredOf(plan.items))
    ensures CoherentVolumes(plan.template.volumes, DesiredOf(plan.items))
    ensures forall c <- plan.template.containers ::
      && CoherentMounts(c.mounts, conn.mountDir, DesiredOf(plan.items))
      && forall d <- Domains(plan.items) :: exists cm <- plan.items :: Backed(plan.template.volumes, c.mounts, conn, d, cm)
  {
    hide CollisionFree, CoherentVolumes, CoherentMounts, Backed, ZoneEntryOk, VolumeEntryOk, DesiredOf, Domains,
      Respliceable, Genuine, IsOrderOf, NewVolumes, NewMounts, Complete, GoodDomain, ZoneMapOk;
    NoConnectorErrors(p, plan.zones, plan.items);
    PassAgrees(plan.workload.template.volumes, plan.workload.template.containers[0].mounts, conn, plan.items, plan.volumeOrder);
  }

  /**
   * So a container that opens the file of a block reads the zone file of a ConfigMap of its domain,
   * and of no other, and cannot write it.
   */
  lemma BlocksReadTheirFiles(p: Params, conn: ConnectorSpec, stamp: string, plan: Plan)
    requires (forall cm <- plan.items :: ZoneEntryOk(cm) && VolumeEntryOk(cm)) && |plan.workload.template.containers| > 0
    requires PlanOk(p, conn, stamp, plan) && CollisionFree(Domains(plan.items))
    requires CoherentVolumes(plan.workload.template.volumes, DesiredOf(plan.items))
    requires CoherentMounts(plan.workload.template.containers[0].mounts, conn.mountDir, DesiredOf(plan.items))
    ensures forall c <- plan.template.containers, d <- Domains(plan.items) ::
      ReadsZone(plan.template.volumes, c.mounts, conn.mountDir + "/" + ZoneFileKey(d), plan.items, d)
  {
    hide CollisionFree, CoherentVolumes, CoherentMounts, Backed, ZoneEntryOk, VolumeEntryOk, DesiredOf, Domains,
      MapsOf, Respliceable, Remounted, ReadsZone, ZoneMapOk;
    BlocksAreMounted(p, conn, stamp, plan);
    PlanParts(p, conn, stamp, plan);
    forall c <- plan.template.containers, d <- Domains(plan.items)
      ensures ReadsZone(plan.template.volumes, c.mounts, conn.mountDir + "/" + ZoneFileKey(d), plan.items, d)
    {
      var cm := DesiredOfDomain(plan.items, d);
      BackedWanted(plan.template.volumes, c.mounts, conn, plan.items, d, cm);
      BackedReads(plan.template.volumes, c.mounts, conn, plan.items, d, cm);
    }
  }

  /** The ConfigMap that is mounted for a domain is the wanted one. */
  lemma BackedWanted(volumes: seq<Volume>, mounts: seq<VolumeMount>, conn: ConnectorSpec, items: seq<ConfigMap>, d: string,
                     cm: ConfigMap)
    requires (forall c <- items :: VolumeEntryOk(c)) && CoherentVolumes(volumes, DesiredOf(items))
    requires exists x <- items :: Backed(volumes, mounts, conn, d, x)
    requires ZoneMapOk(cm) && DomainOf(cm) == d && VolumeName(d) in DesiredOf(items)
    requires DesiredOf(items)[VolumeName(d)] == ZoneSource(cm.name, ZoneFileKey(d))
    ensures Backed(volumes, mounts, conn, d, cm)
  {
    hide DesiredOf, VolumeName, ZoneFileKey, ZoneMapOk, VolumeEntryOk;
  }

  /** The volume and the mounts of this ConfigMap's own domain are those of this ConfigMap. */
  ghost predicate OwnFile(volumes: seq<Volume>, mounts: seq<VolumeMount>, conn: ConnectorSpec, cm: ConfigMap) {
    ZoneEntryOk(cm) && Backed(volumes, mounts, conn, cm.annotations["DomainName"], cm)
  }

  predicate ShareDomain(a: ConfigMap, b: ConfigMap) {
    ZoneEntryOk(a) && ZoneEntryOk(b) && a.annotations["DomainName"] == b.annotations["DomainName"]
  }

  predicate DomainsApart(items: seq<ConfigMap>) {
    forall a <- items, b <- items :: ShareDomain(a, b) ==> a == b
  }

  lemma SameMap(items: seq<ConfigMap>, a: ConfigMap, b: ConfigMap)
    requires SortedMaps(items) && a in items && b in items && a.name == b.name
    ensures a == b
  {
    var i :| 0 <= i < |items| && items[i] == a;
    var j :| 0 <= j < |items| && items[j] == b;
    BeforeTotal(a.name, b.name);
  }

  lemma OneFilePerDomain(volumes: seq<Volume>, mounts: seq<VolumeMount>, conn: ConnectorSpec, items: seq<ConfigMap>,
                         a: ConfigMap, b: ConfigMap)
    requires (forall cm <- items :: VolumeEntryOk(cm)) && CoherentVolumes(volumes, DesiredOf(items))
    requires OwnFile(volumes, mounts, conn, a) && OwnFile(volumes, mounts, conn, b)
    requires a.annotations["DomainName"] == b.annotations["DomainName"]
    requires VolumeName(a.annotations["DomainName"]) in DesiredOf(items)
    ensures a.name == b.name
  {
    hide DesiredOf, VolumeName, ZoneFileKey;
  }

  lemma BackedByOwn(volumes: seq<Volume>, mounts: seq<VolumeMount>, conn: ConnectorSpec, items: seq<ConfigMap>, cm: ConfigMap)
    requires DomainsApart(items) && cm in items && ZoneEntryOk(cm)
    requires exists x <- items :: Backed(volumes, mounts, conn, cm.annotations["DomainName"], x)
    ensures OwnFile(volumes, mounts, conn, cm)
  {
    hide VolumeName, ZoneFileKey;
    var x :| x in items && Backed(volumes, mounts, conn, cm.annotations["DomainName"], x);
    ZoneMapEntries(x);
  }

  /**
   * Two zones may have the same domain; both are then told that they are active, and both serials
   * reported. Under the same assumptions, every ConfigMap is itself the one that is mounted exactly
   * if no two of them share a domain.
   */
  lemma EachMapMountedIff(p: Params, conn: ConnectorSpec, stamp: string, plan: Plan)
    requires (forall cm <- plan.items :: ZoneEntryOk(cm) && VolumeEntryOk(cm)) && |plan.workload.template.containers| > 0
    requires PlanOk(p, conn, stamp, plan) && CollisionFree(Domains(plan.items))
    requires CoherentVolumes(plan.workload.template.volumes, DesiredOf(plan.items))
    requires CoherentMounts(plan.workload.template.containers[0].mounts, conn.mountDir, DesiredOf(plan.items))
    ensures (forall c <- plan.template.containers, cm <- plan.items :: OwnFile(plan.template.volumes, c.mounts, conn, cm))
      <==> DomainsApart(plan.items)
  {
    hide CollisionFree, CoherentVolumes, CoherentMounts, Backed, OwnFile, ZoneEntryOk, VolumeEntryOk, DesiredOf, Domains,
      MapsOf, Respliceable, Remounted, SortedMaps;
    var items, volumes := plan.items, plan.template.volumes;
    BlocksAreMounted(p, conn, stamp, plan);
    PlanParts(p, conn, stamp, plan);
    if forall c <- plan.template.containers, cm <- items :: OwnFile(volumes, c.mounts, conn, cm) {
      var c := plan.template.containers[0];
      forall a <- items, b <- items ensures ShareDomain(a, b) ==> a == b {
        if ShareDomain(a, b) {
          OneFilePerDomain(volumes, c.mounts, conn, items, a, b);
          SameMap(items, a, b);
        }
      }
    }
    if DomainsApart(items) {
      forall c <- plan.template.containers, cm <- items ensures OwnFile(volumes, c.mounts, conn, cm) {
        InDomains(items, cm);
        BackedByOwn(volumes, c.mounts, conn, items, cm);
      }
    }
  }

  lemma InDomains(items: seq<ConfigMap>, cm: ConfigMap)
    requires (forall x <- items :: ZoneEntryOk(x)) && cm in items
    ensures "DomainName" in cm.annotations && cm.annotations["DomainName"] in Domains(items)
  {}

  lemma PlanParts(p: Params, conn: ConnectorSpec, stamp: string, plan: Plan)
    requires PlanOk(p, conn, stamp, plan)
    ensures SortedMaps(plan.items) && |plan.template.containers| > 0
    ensures forall cm <- plan.items :: ZoneMapOk(cm) && ZoneEntryOk(cm) && VolumeEntryOk(cm)
    ensures forall cm <- plan.items :: VolumeName(cm.annotations["DomainName"]) in DesiredOf(plan.items)
  {
    hide Respliceable, DesiredOf, Domains, IsOrderOf, NewVolumes, NewMounts, ZoneEntryOk, VolumeEntryOk, ZoneMapOk,
      Genuine, VolumeName;
    NoConnectorErrors(p, plan.zones, plan.items);
    DesiredFacts(plan.items);
    forall cm <- plan.items ensures VolumeName(cm.annotations["DomainName"]) in DesiredOf(plan.items) {
      InDomains(plan.items, cm);
    }
  }
}
