/** What the DNSConnector controller computes from what it reads, before any of it is written. */
module ConnectorSpecs {
  import opened Objects
  import opened Corefile
  import opened CorefileLaws
  import opened PodTemplate
  import opened PodTemplateLaws
  import opened ZoneFile
  import opened Cluster
  import opened Invariants
  import opened Safety
  import opened Api

  // ---- the good zones ----

  /** The loops of fetchGoodZones: over the zones, and over the conditions of each. */
  method SelectGoodZones(listing: seq<DNSZone>) returns (good: seq<DNSZone>)
    requires UniqueZones(listing)
    ensures UniqueZones(good) && forall z :: z in good <==> z in listing && Selected(z)
  {
    good := [];
    for i := 0 to |listing|
      invariant UniqueZones(good) && forall z :: z in good <==> z in listing[..i] && Selected(z)
    {
      var zone := listing[i];
      assert listing[..i + 1] == listing[..i] + [zone];
      var picked := false;
      for j := 0 to |zone.status.conditions|
        invariant picked <==> exists c <- zone.status.conditions[..j] :: (c.kind == READY && c.status) || zone.status.checkpoint
      {
        var condition := zone.status.conditions[j];
        assert zone.status.conditions[..j + 1] == zone.status.conditions[..j] + [condition];
        if condition.kind == "Ready" && condition.status {
          picked := true;
          assert condition in zone.status.conditions;
          break;
        } else if zone.status.checkpoint {
          picked := true;
          assert condition in zone.status.conditions;
          break;
        }
      }
      assert zone.status.conditions[..|zone.status.conditions|] == zone.status.conditions;
      if picked {
        assert forall z <- good :: z in listing[..i] && z.name != zone.name;
        good := good + [zone];
      }
    }
    assert listing[..|listing|] == listing;
  }

  /** The zones a connector serves: those that name it and are checkpointed, each once. */
  ghost predicate GoodZones(s: State, connector: string, good: seq<DNSZone>) {
    && UniqueZones(good)
    && forall z :: z in good <==>
         z.name in s.zones && s.zones[z.name] == z && z.spec.connectorName == connector && z.status.checkpoint
  }

  /** fetchGoodZones returns exactly the connector's checkpointed zones, each once. */
  lemma SelectedAreGood(p: Params, s: State, connector: string, listing: seq<DNSZone>, good: seq<DNSZone>)
    requires Inv(p, s) && IsZoneListing(s.zones, connector, listing)
    requires UniqueZones(good) && forall z :: z in good <==> z in listing && Selected(z)
    ensures GoodZones(s, connector, good)
  {
    hide Inv, Selected;
    forall z: DNSZone | z in listing ensures Selected(z) <==> z.status.checkpoint {
      SelectedIffCheckpointed(p, s, z.name);
    }
  }

  // ---- their ConfigMaps, sorted by name ----

  predicate SortedMaps(items: seq<ConfigMap>) {
    forall i, j :: 0 <= i < j < |items| ==> Before(items[i].name, items[j].name)
  }

  function InsertMap(sorted: seq<ConfigMap>, cm: ConfigMap): seq<ConfigMap> {
    if sorted == [] || Before(cm.name, sorted[0].name) then [cm] + sorted
    else [sorted[0]] + InsertMap(sorted[1..], cm)
  }

  lemma {:induction false} InsertMapSorts(sorted: seq<ConfigMap>, cm: ConfigMap)
    requires SortedMaps(sorted) && forall m <- sorted :: m.name != cm.name
    ensures SortedMaps(InsertMap(sorted, cm)) && |InsertMap(sorted, cm)| == |sorted| + 1
    ensures forall x :: x in InsertMap(sorted, cm) <==> x in sorted || x == cm
  {
    if sorted != [] {
      var head, rest := sorted[0], sorted[1..];
      assert sorted == [head] + rest && head in sorted;
      BeforeTotal(cm.name, head.name);
      if Before(cm.name, head.name) {
        forall m <- rest ensures Before(cm.name, m.name) {
          BeforeTransitive(cm.name, head.name, m.name);
        }
      } else {
        InsertMapSorts(rest, cm);
        forall x <- InsertMap(rest, cm) ensures Before(head.name, x.name) {
          assert x in rest || x == cm;
        }
      }
    }
  }

  /** sort.Slice on the names. */
  method SortMaps(items: seq<ConfigMap>) returns (sorted: seq<ConfigMap>)
    requires forall i, j :: 0 <= i < j < |items| ==> items[i].name != items[j].name
    ensures SortedMaps(sorted) && |sorted| == |items| && forall x :: x in sorted <==> x in items
  {
    sorted := [];
    for i := 0 to |items|
      invariant SortedMaps(sorted) && |sorted| == i && forall x :: x in sorted <==> x in items[..i]
    {
      assert items[..i + 1] == items[..i] + [items[i]];
      assert forall m <- sorted :: m in items[..i] && m.name != items[i].name;
      InsertMapSorts(sorted, items[i]);
      sorted := InsertMap(sorted, items[i]);
    }
    assert items[..|items|] == items;
  }

  /** The ConfigMap is one the operator wrote for a zone. */
  ghost predicate Genuine(p: Params, cm: ConfigMap) {
    SelfConsistent(p, cm.name, cm)
  }

  /** One ConfigMap per good zone, in the order of their names, each as the operator wrote it. */
  ghost predicate MapsOf(p: Params, zones: seq<DNSZone>, items: seq<ConfigMap>) {
    && SortedMaps(items) && |items| == |zones|
    && (forall cm <- items :: Genuine(p, cm))
    && (forall cm <- items :: exists z <- zones :: cm.name == z.status.zoneConfigmap)
    && (forall z <- zones :: exists cm <- items :: cm.name == z.status.zoneConfigmap)
  }

  lemma DomainIsGood(p: Params, items: seq<ConfigMap>, d: string)
    requires (forall cm <- items :: Genuine(p, cm) && ZoneEntryOk(cm)) && d in Domains(items)
    ensures GoodDomain(d)
  {
    hide GoodDomain, Genuine;
    var cm :| cm in items && ZoneEntryOk(cm) && d == cm.annotations["DomainName"];
    GenuineFacts(p, cm);
  }

  /** The missing-annotation, missing-zonefile and not-one-key errors cannot occur on such a list. */
  lemma NoConnectorErrors(p: Params, zones: seq<DNSZone>, items: seq<ConfigMap>)
    requires MapsOf(p, zones, items)
    ensures forall cm <- items :: Complete(cm) && ZoneMapOk(cm)
    ensures (forall cm <- items :: ZoneEntryOk(cm)) && forall d <- Domains(items) :: GoodDomain(d)
  {
    hide Complete, ZoneMapOk, GoodDomain, Genuine, ZoneEntryOk, Domains;
    forall cm <- items ensures Complete(cm) && ZoneMapOk(cm) && ZoneEntryOk(cm) {
      GenuineFacts(p, cm);
    }
    forall d <- Domains(items) ensures GoodDomain(d) {
      DomainIsGood(p, items, d);
    }
  }

  lemma GenuineFacts(p: Params, cm: ConfigMap)
    requires Genuine(p, cm)
    ensures Complete(cm) && ZoneMapOk(cm) && ZoneEntryOk(cm) && GoodDomain(cm.annotations["DomainName"])
  {
    hide SelfConsistent;
    ConsistentFacts(p, cm.name, cm);
  }

  /** What has been fetched for the first zones, in their order. */
  ghost predicate FetchedFor(p: Params, zones: seq<DNSZone>, items: seq<ConfigMap>) {
    && |items| <= |zones|
    && forall i :: 0 <= i < |items| ==> Genuine(p, items[i]) && items[i].name == zones[i].status.zoneConfigmap
  }

  lemma FetchedGenuine(p: Params, s: State, zones: seq<DNSZone>, items: seq<ConfigMap>)
    requires Inv(p, s) && FetchedFor(p, zones, items) && |items| < |zones|
    requires zones[|items|].status.zoneConfigmap in s.maps
    ensures FetchedFor(p, zones, items + [s.maps[zones[|items|].status.zoneConfigmap]])
  {
    hide SelfConsistent, ZonesOk, RecordsOk, CoreOk, VersionsOk;
    var c := zones[|items|].status.zoneConfigmap;
    ConsistentAt(p, s, c);
    ConsistentName(p, c, s.maps[c]);
  }

  /** Different zones have different ConfigMaps. */
  lemma MapsDiffer(p: Params, s: State, connector: string, zones: seq<DNSZone>, items: seq<ConfigMap>)
    requires NamesApart(p) && Inv(p, s) && GoodZones(s, connector, zones) && FetchedFor(p, zones, items)
    ensures forall i, j :: 0 <= i < j < |items| ==> items[i].name != items[j].name
  {
    hide MapsOk, RecordsOk, CoreOk, MapName, Genuine;
    forall i, j | 0 <= i < j < |items| ensures items[i].name != items[j].name {
      assert zones[i] in zones && zones[j] in zones;
      ZoneOkAt(p, s, zones[i].name);
      ZoneOkAt(p, s, zones[j].name);
      assert MapName(p, zones[i].name) != MapName(p, zones[j].name);
    }
  }

  lemma SortedIsMapsOf(p: Params, zones: seq<DNSZone>, items: seq<ConfigMap>, sorted: seq<ConfigMap>)
    requires FetchedFor(p, zones, items) && |items| == |zones|
    requires SortedMaps(sorted) && |sorted| == |items| && forall x :: x in sorted <==> x in items
    ensures MapsOf(p, zones, sorted)
  {
    hide Genuine;
    forall cm <- sorted ensures Genuine(p, cm) && exists z <- zones :: cm.name == z.status.zoneConfigmap {
      var i :| 0 <= i < |items| && items[i] == cm;
      assert zones[i] in zones;
    }
    forall z <- zones ensures exists cm <- sorted :: cm.name == z.status.zoneConfigmap {
      var i :| 0 <= i < |zones| && zones[i] == z;
      assert items[i] in sorted;
    }
  }

  // ---- the status ----

  function Told(c: DNSConnector, ready: bool, reason: string, message: string, now: int): seq<Condition> {
    SetStatusCondition(c.status.conditions, Condition(READY, ready, reason, message, c.generation, now))
  }

  predicate Annotated(cm: ConfigMap) {
    "DNSZoneRef" in cm.annotations && "DomainName" in cm.annotations && "SerialNumber" in cm.annotations
  }

  lemma CompleteAnnotated(cm: ConfigMap)
    ensures Complete(cm) ==> Annotated(cm)
  {}

  function ProvisionedOf(cm: ConfigMap): ProvisionedZone
    requires Annotated(cm)
  {
    ProvisionedZone(cm.annotations["DNSZoneRef"], cm.annotations["DomainName"], cm.annotations["SerialNumber"])
  }

  function Provisioned(items: seq<ConfigMap>): seq<ProvisionedZone>
    requires forall cm <- items :: Annotated(cm)
  {
    seq(|items|, i requires 0 <= i < |items| => ProvisionedOf(items[i]))
  }

  /** The loop that fills ProvisionedDNSZones; it fails exactly on a missing annotation. */
  method BuildProvisioned(items: seq<ConfigMap>) returns (r: Result<seq<ProvisionedZone>>)
    ensures r.Ok? <==> forall cm <- items :: Annotated(cm)
    ensures r.Ok? ==> r == Ok(Provisioned(items))
  {
    var stats: seq<ProvisionedZone> := [];
    for i := 0 to |items|
      invariant |stats| == i
      invariant forall j :: 0 <= j < i ==> Annotated(items[j]) && stats[j] == ProvisionedOf(items[j])
    {
      var cm := items[i];
      if "DNSZoneRef" !in cm.annotations || "DomainName" !in cm.annotations || "SerialNumber" !in cm.annotations {
        assert cm in items && !Annotated(cm);
        return Err("missing required annotation");
      }
      stats := stats + [ProvisionedZone(cm.annotations["DNSZoneRef"], cm.annotations["DomainName"], cm.annotations["SerialNumber"])];
    }
    assert stats == Provisioned(items);
    r := Ok(stats);
  }

  /** The pod template after setZoneFileConifgMaps. */
  ghost predicate Remounted(conn: ConnectorSpec, was: Template, items: seq<ConfigMap>, order: seq<string>, now: string, t: Template) {
    && |was.containers| > 0 && (forall cm <- items :: VolumeEntryOk(cm))
    && var desired := DesiredOf(items);
       && IsOrderOf(order, desired.Keys) && (forall name <- order :: name in desired)
       && t.annotations == was.annotations["reconcilation-request" := now]
       && t.volumes == NewVolumes(was.volumes, order, desired)
       && |t.containers| == |was.containers|
       && forall i :: 0 <= i < |t.containers| ==>
            t.containers[i] == was.containers[i].(mounts := NewMounts(was.containers[0].mounts, conn.mountDir, order, desired))
  }

  /** The splice of generateCorefileCM can be made, in this order. */
  predicate Respliceable(conn: ConnectorSpec, core: ConfigMap, items: seq<ConfigMap>, order: seq<string>) {
    && (forall cm <- items :: ZoneEntryOk(cm)) && conn.corefileKey in core.data
    && IsOrderOf(order, ScanText(core.data[conn.corefileKey], Blocks(conn, Domains(items))).blocks.Keys)
  }

  // ---- a pass, as far as it is computed before anything is written ----

  datatype Plan = Plan(
    core: ConfigMap,
    workload: Workload,
    zones: seq<DNSZone>,
    items: seq<ConfigMap>,
    template: Template,
    volumeOrder: seq<string>,
    corefileOrder: seq<string>)

  ghost predicate PlanOk(p: Params, conn: ConnectorSpec, now: string, plan: Plan) {
    && MapsOf(p, plan.zones, plan.items)
    && Respliceable(conn, plan.core, plan.items, plan.corefileOrder)
    && Remounted(conn, plan.workload.template, plan.items, plan.volumeOrder, now, plan.template)
  }

  /** The Corefile text that a plan's write puts into the CoreDNS ConfigMap. */
  function CorefileOf(conn: ConnectorSpec, plan: Plan): string
    requires Respliceable(conn, plan.core, plan.items, plan.corefileOrder)
  {
    Spliced(plan.core.data[conn.corefileKey], Blocks(conn, Domains(plan.items)), plan.corefileOrder)
  }
}
