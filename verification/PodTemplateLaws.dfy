/** What one reconciling pass does to volumes and mounts, and how it agrees with the Corefile. */
module PodTemplateLaws {
  import opened Text
  import opened Objects
  import opened Corefile
  import opened CorefileLaws
  import opened PodTemplate

  // ---- independent views ----

  function ForeignVolumes(volumes: seq<Volume>): seq<Volume> {
    if volumes == [] then []
    else
      var last := volumes[|volumes| - 1];
      ForeignVolumes(volumes[..|volumes| - 1]) + if IsZoneName(last.name) then [] else [last]
  }

  function ForeignMounts(mounts: seq<VolumeMount>): seq<VolumeMount> {
    if mounts == [] then []
    else
      var last := mounts[|mounts| - 1];
      ForeignMounts(mounts[..|mounts| - 1]) + if IsZoneName(last.name) then [] else [last]
  }

  ghost predicate DistinctNames(volumes: seq<Volume>) {
    forall i, j :: 0 <= i < j < |volumes| ==> volumes[i].name != volumes[j].name
  }

  ghost predicate DistinctPaths(mounts: seq<VolumeMount>) {
    forall i, j :: 0 <= i < j < |mounts| ==> mounts[i].mountPath != mounts[j].mountPath
  }

  predicate ZoneNamed(desired: map<string, ZoneSource>) {
    forall name <- desired :: IsZoneName(name)
  }

  // ---- filtering ----

  lemma {:induction false} KeptVolumesIn(volumes: seq<Volume>, desired: map<string, ZoneSource>)
    ensures forall x :: x in KeptVolumes(volumes, desired) <==> x in volumes && KeepName(x.name, desired)
    ensures DistinctNames(volumes) ==> DistinctNames(KeptVolumes(volumes, desired))
  {
    hide KeepName;
    if volumes != [] {
      var init, last := volumes[..|volumes| - 1], volumes[|volumes| - 1];
      assert volumes == init + [last];
      KeptVolumesIn(init, desired);
    }
  }

  lemma {:induction false} KeptVolumesForeign(volumes: seq<Volume>, desired: map<string, ZoneSource>)
    ensures ForeignVolumes(KeptVolumes(volumes, desired)) == ForeignVolumes(volumes)
  {
    hide IsZoneName;
    if volumes != [] {
      var init, last := volumes[..|volumes| - 1], volumes[|volumes| - 1];
      KeptVolumesForeign(init, desired);
      var kept := KeptVolumes(init, desired);
      if KeepName(last.name, desired) {
        assert (kept + [last])[..|kept|] == kept;
      } else {
        assert IsZoneName(last.name) && kept + [] == kept;
      }
    }
  }

  lemma KeptVolumesFacts(volumes: seq<Volume>, desired: map<string, ZoneSource>)
    ensures forall x :: x in KeptVolumes(volumes, desired) <==> x in volumes && KeepName(x.name, desired)
    ensures DistinctNames(volumes) ==> DistinctNames(KeptVolumes(volumes, desired))
    ensures ForeignVolumes(KeptVolumes(volumes, desired)) == ForeignVolumes(volumes)
  {
    KeptVolumesIn(volumes, desired);
    KeptVolumesForeign(volumes, desired);
  }

  lemma {:induction false} KeptMountsIn(mounts: seq<VolumeMount>, desired: map<string, ZoneSource>)
    ensures forall x :: x in KeptMounts(mounts, desired) <==> x in mounts && KeepName(x.name, desired)
    ensures DistinctPaths(mounts) ==> DistinctPaths(KeptMounts(mounts, desired))
  {
    hide KeepName;
    if mounts != [] {
      var init, last := mounts[..|mounts| - 1], mounts[|mounts| - 1];
      assert mounts == init + [last];
      KeptMountsIn(init, desired);
    }
  }

  lemma {:induction false} KeptMountsForeign(mounts: seq<VolumeMount>, desired: map<string, ZoneSource>)
    ensures ForeignMounts(KeptMounts(mounts, desired)) == ForeignMounts(mounts)
  {
    hide IsZoneName;
    if mounts != [] {
      var init, last := mounts[..|mounts| - 1], mounts[|mounts| - 1];
      KeptMountsForeign(init, desired);
      var kept := KeptMounts(init, desired);
      if KeepName(last.name, desired) {
        assert (kept + [last])[..|kept|] == kept;
      } else {
        assert IsZoneName(last.name) && kept + [] == kept;
      }
    }
  }

  lemma KeptMountsFacts(mounts: seq<VolumeMount>, desired: map<string, ZoneSource>)
    ensures forall x :: x in KeptMounts(mounts, desired) <==> x in mounts && KeepName(x.name, desired)
    ensures DistinctPaths(mounts) ==> DistinctPaths(KeptMounts(mounts, desired))
    ensures ForeignMounts(KeptMounts(mounts, desired)) == ForeignMounts(mounts)
  {
    KeptMountsIn(mounts, desired);
    KeptMountsForeign(mounts, desired);
  }

  lemma {:induction false} KeptAllVolumes(volumes: seq<Volume>, desired: map<string, ZoneSource>)
    requires forall v <- volumes :: KeepName(v.name, desired)
    ensures KeptVolumes(volumes, desired) == volumes
  {
    if volumes != [] {
      var init, last := volumes[..|volumes| - 1], volumes[|volumes| - 1];
      assert last in volumes && volumes == init + [last];
      KeptAllVolumes(init, desired);
    }
  }

  lemma {:induction false} KeptAllMounts(mounts: seq<VolumeMount>, desired: map<string, ZoneSource>)
    requires forall m <- mounts :: KeepName(m.name, desired)
    ensures KeptMounts(mounts, desired) == mounts
  {
    if mounts != [] {
      var init, last := mounts[..|mounts| - 1], mounts[|mounts| - 1];
      assert last in mounts && mounts == init + [last];
      KeptAllMounts(init, desired);
    }
  }

  // ---- adding ----

  predicate HasName(volumes: seq<Volume>, name: string) {
    exists v <- volumes :: v.name == name
  }

  predicate HasPath(mounts: seq<VolumeMount>, path: string) {
    exists m <- mounts :: m.mountPath == path
  }

  lemma {:induction false} AddVolumesFacts(volumes: seq<Volume>, order: seq<string>, desired: map<string, ZoneSource>)
    requires Distinct(order) && forall name <- order :: name in desired
    ensures forall v :: v in AddVolumes(volumes, order, desired) <==>
      v in volumes || (v.name in order && !HasName(volumes, v.name) && v == ZoneVolume(v.name, desired[v.name]))
    ensures DistinctNames(volumes) ==> DistinctNames(AddVolumes(volumes, order, desired))
    ensures ZoneNamed(desired) ==> ForeignVolumes(AddVolumes(volumes, order, desired)) == ForeignVolumes(volumes)
  {
    hide IsZoneName;
    if order != [] {
      var init, last := order[..|order| - 1], order[|order| - 1];
      assert order == init + [last] && last !in init;
      AddVolumesFacts(volumes, init, desired);
      var before := AddVolumes(volumes, init, desired);
      assert HasName(before, last) <==> HasName(volumes, last);
      if !HasName(before, last) {
        var added := ZoneVolume(last, desired[last]);
        assert (before + [added])[..|before|] == before;
      }
    }
  }

  lemma {:induction false} AddMountsFacts(mounts: seq<VolumeMount>, mountDir: string, order: seq<string>,
                                          desired: map<string, ZoneSource>)
    requires forall name <- order :: name in desired
    ensures forall m <- mounts :: m in AddMounts(mounts, mountDir, order, desired)
    ensures forall m <- AddMounts(mounts, mountDir, order, desired) ::
      m in mounts || (m.name in order && m == ZoneMount(mountDir, m.name, desired[m.name]) && !HasPath(mounts, m.mountPath))
    ensures forall name <- order ::
      HasPath(AddMounts(mounts, mountDir, order, desired), MountPath(mountDir, desired[name].key))
    ensures DistinctPaths(mounts) ==> DistinctPaths(AddMounts(mounts, mountDir, order, desired))
    ensures ZoneNamed(desired) ==> ForeignMounts(AddMounts(mounts, mountDir, order, desired)) == ForeignMounts(mounts)
  {
    hide IsZoneName;
    if order != [] {
      var init, last := order[..|order| - 1], order[|order| - 1];
      assert order == init + [last];
      AddMountsFacts(mounts, mountDir, init, desired);
      var before := AddMounts(mounts, mountDir, init, desired);
      var path := MountPath(mountDir, desired[last].key);
      if !HasPath(before, path) {
        var added := ZoneMount(mountDir, last, desired[last]);
        assert (before + [added])[..|before|] == before;
        assert added in before + [added];
      }
    }
  }

  lemma {:induction false} NothingToAddVolumes(volumes: seq<Volume>, order: seq<string>, desired: map<string, ZoneSource>)
    requires forall name <- order :: name in desired && HasName(volumes, name)
    ensures AddVolumes(volumes, order, desired) == volumes
  {
    if order != [] {
      var init, last := order[..|order| - 1], order[|order| - 1];
      assert last in order && HasName(volumes, last);
      NothingToAddVolumes(volumes, init, desired);
    }
  }

  lemma {:induction false} NothingToAddMounts(mounts: seq<VolumeMount>, mountDir: string, order: seq<string>,
                                              desired: map<string, ZoneSource>)
    requires forall name <- order :: name in desired && HasPath(mounts, MountPath(mountDir, desired[name].key))
    ensures AddMounts(mounts, mountDir, order, desired) == mounts
  {
    if order != [] {
      var init, last := order[..|order| - 1], order[|order| - 1];
      assert last in order && HasPath(mounts, MountPath(mountDir, desired[last].key));
      NothingToAddMounts(mounts, mountDir, init, desired);
    }
  }

  // ---- one pass ----

  lemma Ordered(order: seq<string>, desired: map<string, ZoneSource>)
    requires IsOrderOf(order, desired.Keys)
    ensures forall name :: name in order <==> name in desired
  {
    assert forall name :: name in order <==> name in Members(order);
  }

  /** The volumes of a pass, whatever the order of the map. */
  lemma NewVolumesLaw(volumes: seq<Volume>, order: seq<string>, desired: map<string, ZoneSource>)
    requires IsOrderOf(order, desired.Keys)
    ensures forall name <- order :: name in desired
    ensures var after := NewVolumes(volumes, order, desired);
      && (forall v <- after :: IsZoneName(v.name) ==> v.name in desired)
      && (forall name <- desired :: HasName(after, name))
      && (forall v <- volumes :: v.name in desired ==> v in after)
      && (forall v <- after :: v in volumes || (v.name in desired && v == ZoneVolume(v.name, desired[v.name])))
      && (DistinctNames(volumes) ==> DistinctNames(after))
      && (ZoneNamed(desired) ==> ForeignVolumes(after) == ForeignVolumes(volumes))
  {
    Ordered(order, desired);
    KeptVolumesFacts(volumes, desired);
    var kept := KeptVolumes(volumes, desired);
    AddVolumesFacts(kept, order, desired);
    forall name <- desired ensures HasName(NewVolumes(volumes, order, desired), name) {
      assert HasName(kept, name) || ZoneVolume(name, desired[name]) in AddVolumes(kept, order, desired);
    }
  }

  /** The mounts of a pass, whatever the order of the map. */
  lemma NewMountsLaw(mounts: seq<VolumeMount>, mountDir: string, order: seq<string>, desired: map<string, ZoneSource>)
    requires IsOrderOf(order, desired.Keys)
    ensures forall name <- order :: name in desired
    ensures var after := NewMounts(mounts, mountDir, order, desired);
      && (forall m <- after :: IsZoneName(m.name) ==> m.name in desired)
      && (forall name <- desired :: HasPath(after, MountPath(mountDir, desired[name].key)))
      && (forall m <- mounts :: m.name in desired ==> m in after)
      && (forall m <- after :: m in mounts || (m.name in desired && m == ZoneMount(mountDir, m.name, desired[m.name])))
      && (DistinctPaths(mounts) ==> DistinctPaths(after))
      && (ZoneNamed(desired) ==> ForeignMounts(after) == ForeignMounts(mounts))
  {
    Ordered(order, desired);
    KeptMountsFacts(mounts, desired);
    AddMountsFacts(KeptMounts(mounts, desired), mountDir, order, desired);
  }

  /** A second pass with the same wishes changes nothing, in any order of iteration. */
  lemma SecondPassIsIdle(volumes: seq<Volume>, mounts: seq<VolumeMount>, mountDir: string,
                         desired: map<string, ZoneSource>, order: seq<string>, again: seq<string>)
    requires IsOrderOf(order, desired.Keys) && IsOrderOf(again, desired.Keys)
    ensures (forall name <- order :: name in desired) && forall name <- again :: name in desired
    ensures var v, m := NewVolumes(volumes, order, desired), NewMounts(mounts, mountDir, order, desired);
      NewVolumes(v, again, desired) == v && NewMounts(m, mountDir, again, desired) == m
  {
    Ordered(order, desired);
    Ordered(again, desired);
    NewVolumesLaw(volumes, order, desired);
    NewMountsLaw(mounts, mountDir, order, desired);
    var v, m := NewVolumes(volumes, order, desired), NewMounts(mounts, mountDir, order, desired);
    KeptAllVolumes(v, desired);
    KeptAllMounts(m, desired);
    NothingToAddVolumes(v, again, desired);
    NothingToAddMounts(m, mountDir, again, desired);
  }

  /** A kept volume is never refreshed: the wanted one is there exactly if no other held its name. */
  lemma StaleVolumeStays(volumes: seq<Volume>, order: seq<string>, desired: map<string, ZoneSource>, name: string)
    requires IsOrderOf(order, desired.Keys) && name in desired && DistinctNames(volumes)
    ensures forall n <- order :: n in desired
    ensures ZoneVolume(name, desired[name]) in NewVolumes(volumes, order, desired) <==>
      forall v <- volumes :: v.name == name ==> v == ZoneVolume(name, desired[name])
  {
    Ordered(order, desired);
    NewVolumesLaw(volumes, order, desired);
    KeptVolumesFacts(volumes, desired);
    var kept, wanted := KeptVolumes(volumes, desired), ZoneVolume(name, desired[name]);
    AddVolumesFacts(kept, order, desired);
    if v :| v in volumes && v.name == name && v != wanted {
      assert HasName(kept, name);
    }
  }

  // ---- agreement with the Corefile ----

  ghost predicate CoherentVolumes(volumes: seq<Volume>, desired: map<string, ZoneSource>) {
    forall v <- volumes :: v.name in desired ==> v == ZoneVolume(v.name, desired[v.name])
  }

  /** A mount that carries a wanted name or a wanted path is the wanted mount. */
  ghost predicate CoherentMounts(mounts: seq<VolumeMount>, mountDir: string, desired: map<string, ZoneSource>) {
    forall m <- mounts, name <- desired ::
      m.name == name || m.mountPath == MountPath(mountDir, desired[name].key) ==> m == ZoneMount(mountDir, name, desired[name])
  }

  /** Neither volume names nor zone-file keys collide. */
  predicate CollisionFree(domains: set<string>) {
    forall d <- domains, e <- domains :: VolumeName(d) == VolumeName(e) || ZoneFileKey(d) == ZoneFileKey(e) ==> d == e
  }

  /** A zone ConfigMap as the zone controller writes it: one key, the zone file of its domain. */
  predicate ZoneMapOk(cm: ConfigMap) {
    "DomainName" in cm.annotations && cm.data.Keys == {ZoneFileKey(cm.annotations["DomainName"])}
  }

  lemma ZoneMapEntries(cm: ConfigMap)
    requires ZoneMapOk(cm)
    ensures ZoneEntryOk(cm) && VolumeEntryOk(cm)
    ensures SourceOf(cm) == ZoneSource(cm.name, ZoneFileKey(cm.annotations["DomainName"]))
  {
    var key := ZoneFileKey(cm.annotations["DomainName"]);
    assert |cm.data| == |cm.data.Keys| == 1;
    OnlyKeyIs(cm.data, key);
  }

  lemma ZoneMapsOk(items: seq<ConfigMap>)
    requires forall cm <- items :: ZoneMapOk(cm)
    ensures forall cm <- items :: ZoneEntryOk(cm) && VolumeEntryOk(cm)
  {
    forall cm <- items ensures ZoneEntryOk(cm) && VolumeEntryOk(cm) {
      ZoneMapEntries(cm);
    }
  }

  lemma {:induction false} DesiredFacts(items: seq<ConfigMap>)
    requires forall cm <- items :: ZoneMapOk(cm)
    ensures forall cm <- items :: ZoneEntryOk(cm) && VolumeEntryOk(cm)
    ensures forall d <- Domains(items) :: VolumeName(d) in DesiredOf(items)
    ensures forall name <- DesiredOf(items) :: exists cm <- items ::
      name == VolumeName(cm.annotations["DomainName"]) && DesiredOf(items)[name] == SourceOf(cm)
  {
    ZoneMapsOk(items);
    if items != [] {
      var init, last := items[..|items| - 1], items[|items| - 1];
      assert items == init + [last] && last in items;
      DesiredFacts(init);
      AddDomain(init, last);
    }
  }

  function DomainOf(cm: ConfigMap): string
    requires ZoneMapOk(cm)
  {
    cm.annotations["DomainName"]
  }

  /** The path in a block's file line is a mount of every container and a volume of the zone's ConfigMap. */
  ghost predicate Backed(volumes: seq<Volume>, mounts: seq<VolumeMount>, conn: ConnectorSpec, d: string, cm: ConfigMap) {
    && ZoneMapOk(cm) && DomainOf(cm) == d
    && var source := ZoneSource(cm.name, ZoneFileKey(d));
       ZoneMount(conn.mountDir, VolumeName(d), source) in mounts && ZoneVolume(VolumeName(d), source) in volumes
  }

  lemma DesiredOfDomain(items: seq<ConfigMap>, d: string) returns (cm: ConfigMap)
    requires (forall c <- items :: ZoneMapOk(c) && ZoneEntryOk(c) && VolumeEntryOk(c))
    requires CollisionFree(Domains(items)) && d in Domains(items)
    ensures cm in items && DomainOf(cm) == d && VolumeName(d) in DesiredOf(items)
    ensures DesiredOf(items)[VolumeName(d)] == ZoneSource(cm.name, ZoneFileKey(d))
  {
    DesiredFacts(items);
    cm :| cm in items && VolumeName(d) == VolumeName(cm.annotations["DomainName"]) &&
      DesiredOf(items)[VolumeName(d)] == SourceOf(cm);
    assert cm.annotations["DomainName"] in Domains(items);
    ZoneMapEntries(cm);
  }

  lemma DesiredKeysDiffer(items: seq<ConfigMap>, a: string, b: string)
    requires (forall c <- items :: ZoneMapOk(c) && ZoneEntryOk(c) && VolumeEntryOk(c))
    requires CollisionFree(Domains(items)) && a in DesiredOf(items) && b in DesiredOf(items)
    ensures DesiredOf(items)[a].key == DesiredOf(items)[b].key ==> a == b
  {
    DesiredFacts(items);
    var x :| x in items && a == VolumeName(x.annotations["DomainName"]) && DesiredOf(items)[a] == SourceOf(x);
    var y :| y in items && b == VolumeName(y.annotations["DomainName"]) && DesiredOf(items)[b] == SourceOf(y);
    ZoneMapEntries(x);
    ZoneMapEntries(y);
    assert x.annotations["DomainName"] in Domains(items) && y.annotations["DomainName"] in Domains(items);
  }

  lemma SamePath(mountDir: string, a: string, b: string)
    requires MountPath(mountDir, a) == MountPath(mountDir, b)
    ensures a == b
  {
    assert MountPath(mountDir, a)[|mountDir| + 1..] == a;
    assert MountPath(mountDir, b)[|mountDir| + 1..] == b;
  }

  /** The pass keeps coherence and mounts the file of every zone it was given. */
  lemma PassAgrees(volumes: seq<Volume>, mounts: seq<VolumeMount>, conn: ConnectorSpec, items: seq<ConfigMap>, order: seq<string>)
    requires forall c <- items :: ZoneMapOk(c) && ZoneEntryOk(c) && VolumeEntryOk(c)
    requires CollisionFree(Domains(items)) && IsOrderOf(order, DesiredOf(items).Keys)
    requires CoherentVolumes(volumes, DesiredOf(items)) && CoherentMounts(mounts, conn.mountDir, DesiredOf(items))
    ensures forall name <- order :: name in DesiredOf(items)
    ensures var v, m := NewVolumes(volumes, order, DesiredOf(items)), NewMounts(mounts, conn.mountDir, order, DesiredOf(items));
      && CoherentVolumes(v, DesiredOf(items)) && CoherentMounts(m, conn.mountDir, DesiredOf(items))
      && forall d <- Domains(items) :: exists cm <- items :: Backed(v, m, conn, d, cm)
  {
    hide VolumeName, ZoneFileKey, IsZoneName, DesiredOf, IsOrderOf, NewVolumes, NewMounts, Domains, CollisionFree;
    var desired := DesiredOf(items);
    NewVolumesLaw(volumes, order, desired);
    NewMountsLaw(mounts, conn.mountDir, order, desired);
    var v, m := NewVolumes(volumes, order, desired), NewMounts(mounts, conn.mountDir, order, desired);
    NewVolumesCoherent(volumes, order, desired);
    forall mount <- m, name <- desired |
      mount.name == name || mount.mountPath == MountPath(conn.mountDir, desired[name].key)
      ensures mount == ZoneMount(conn.mountDir, name, desired[name])
    {
      if mount !in mounts && mount.name != name {
        SamePath(conn.mountDir, desired[mount.name].key, desired[name].key);
        DesiredKeysDiffer(items, mount.name, name);
      }
    }
    forall d <- Domains(items) ensures exists cm <- items :: Backed(v, m, conn, d, cm) {
      var cm := DesiredOfDomain(items, d);
      var name := VolumeName(d);
      assert HasName(v, name) && HasPath(m, MountPath(conn.mountDir, desired[name].key));
      assert Backed(v, m, conn, d, cm);
    }
  }

  lemma NewVolumesCoherent(volumes: seq<Volume>, order: seq<string>, desired: map<string, ZoneSource>)
    requires IsOrderOf(order, desired.Keys) && CoherentVolumes(volumes, desired)
    ensures forall name <- order :: name in desired
    ensures CoherentVolumes(NewVolumes(volumes, order, desired), desired)
  {
    Ordered(order, desired);
    KeptVolumesFacts(volumes, desired);
    AddVolumesFacts(KeptVolumes(volumes, desired), order, desired);
  }

  /** Wishes of two passes that never reassign a volume name or a zone-file key. */
  predicate SteadyWishes(a: map<string, ZoneSource>, b: map<string, ZoneSource>) {
    forall n <- a, k <- b :: n == k || a[n].key == b[k].key ==> n == k && a[n] == b[k]
  }

  /** So coherence carries over to the next pass even when zones come and go. */
  lemma CoherenceCarriesOver(volumes: seq<Volume>, mounts: seq<VolumeMount>, mountDir: string,
                             before: map<string, ZoneSource>, after: map<string, ZoneSource>)
    requires ZoneNamed(after) && SteadyWishes(before, after)
    requires CoherentVolumes(volumes, before) && CoherentMounts(mounts, mountDir, before)
    requires forall v <- volumes :: IsZoneName(v.name) ==> v.name in before
    requires forall m <- mounts :: IsZoneName(m.name) ==> m.name in before
    requires forall m <- mounts, name <- after ::
      !IsZoneName(m.name) ==> m.mountPath != MountPath(mountDir, after[name].key)
    ensures CoherentVolumes(volumes, after) && CoherentMounts(mounts, mountDir, after)
  {
    hide IsZoneName;
    forall m <- mounts, name <- after | m.name == name || m.mountPath == MountPath(mountDir, after[name].key)
      ensures m == ZoneMount(mountDir, name, after[name])
    {
      assert IsZoneName(m.name) && m == ZoneMount(mountDir, m.name, before[m.name]);
      if m.name != name {
        SamePath(mountDir, before[m.name].key, after[name].key);
      }
    }
  }

  /** From a template without zone mounts: every zone file is mounted exactly if no volume names collide. */
  lemma AllMountedIff(mounts: seq<VolumeMount>, mountDir: string, items: seq<ConfigMap>, order: seq<string>)
    requires forall c <- items :: ZoneMapOk(c) && ZoneEntryOk(c) && VolumeEntryOk(c)
    requires forall d <- Domains(items), e <- Domains(items) :: ZoneFileKey(d) == ZoneFileKey(e) ==> d == e
    requires forall m <- mounts, d <- Domains(items) :: m.mountPath != MountPath(mountDir, ZoneFileKey(d))
    requires IsOrderOf(order, DesiredOf(items).Keys)
    ensures forall name <- order :: name in DesiredOf(items)
    ensures var after := NewMounts(mounts, mountDir, order, DesiredOf(items));
      (forall d <- Domains(items) :: HasPath(after, MountPath(mountDir, ZoneFileKey(d)))) <==>
      (forall d <- Domains(items), e <- Domains(items) :: VolumeName(d) == VolumeName(e) ==> d == e)
  {
    hide VolumeName, ZoneFileKey, IsZoneName, DesiredOf, IsOrderOf, NewMounts, Domains;
    var desired := DesiredOf(items);
    NewMountsLaw(mounts, mountDir, order, desired);
    var after := NewMounts(mounts, mountDir, order, desired);
    if forall d <- Domains(items), e <- Domains(items) :: VolumeName(d) == VolumeName(e) ==> d == e {
      forall d <- Domains(items) ensures HasPath(after, MountPath(mountDir, ZoneFileKey(d))) {
        assert CollisionFree(Domains(items));
        var cm := DesiredOfDomain(items, d);
      }
    }
    if forall d <- Domains(items) :: HasPath(after, MountPath(mountDir, ZoneFileKey(d))) {
      forall d <- Domains(items) ensures HasPath(after, MountPath(mountDir, ZoneFileKey(d))) &&
        VolumeName(d) in desired && desired[VolumeName(d)].key == ZoneFileKey(d)
      {
        MountedUnderItsName(after, mounts, mountDir, items, d);
      }
    }
  }

  lemma MountedUnderItsName(after: seq<VolumeMount>, mounts: seq<VolumeMount>, mountDir: string,
                            items: seq<ConfigMap>, d: string)
    requires forall c <- items :: ZoneMapOk(c) && ZoneEntryOk(c) && VolumeEntryOk(c)
    requires forall d <- Domains(items), e <- Domains(items) :: ZoneFileKey(d) == ZoneFileKey(e) ==> d == e
    requires forall m <- mounts, d <- Domains(items) :: m.mountPath != MountPath(mountDir, ZoneFileKey(d))
    requires forall m <- after ::
      m in mounts || (m.name in DesiredOf(items) && m == ZoneMount(mountDir, m.name, DesiredOf(items)[m.name]))
    requires d in Domains(items) && HasPath(after, MountPath(mountDir, ZoneFileKey(d)))
    ensures VolumeName(d) in DesiredOf(items) && DesiredOf(items)[VolumeName(d)].key == ZoneFileKey(d)
  {
    hide VolumeName, ZoneFileKey, DesiredOf, Domains;
    var m :| m in after && m.mountPath == MountPath(mountDir, ZoneFileKey(d));
    SamePath(mountDir, DesiredOf(items)[m.name].key, ZoneFileKey(d));
    DesiredFacts(items);
    var cm :| cm in items && m.name == VolumeName(cm.annotations["DomainName"]) && DesiredOf(items)[m.name] == SourceOf(cm);
    ZoneMapEntries(cm);
    assert cm.annotations["DomainName"] in Domains(items) by { InDomains(items, cm); }
  }

  lemma InDomains(items: seq<ConfigMap>, cm: ConfigMap)
    requires cm in items && (forall c <- items :: ZoneEntryOk(c)) && ZoneEntryOk(cm)
    ensures cm.annotations["DomainName"] in Domains(items)
  {}

  /** Dots become dashes, so two ordinary domains can share a volume name. */
  lemma DashedDomainsCollide()
    ensures VolumeName("a.b") == VolumeName("a-b") && ZoneFileKey("a.b") != ZoneFileKey("a-b")
  {
    assert ReplaceAll("a.b", '.', '-') == "a-b" == ReplaceAll("a-b", '.', '-');
    assert ZoneFileKey("a.b")[1] == '.' && ZoneFileKey("a-b")[1] == '-';
  }

  /** The file line of a written block names the path that is mounted. */
  lemma BlockServesMountedFile(conn: ConnectorSpec, d: string)
    requires SafeConnector(conn) && '\n' !in d
    ensures |Body(conn, d)| > 1 && Body(conn, d)[1] == "\tfile " + MountPath(conn.mountDir, ZoneFileKey(d))
  {
    hide Body, ZoneFileKey, MarkerFree, PluginLines;
    BodyIs(conn, d);
  }

  // ---- the names of the volumes ----

  /** Equal but for dots and dashes. */
  predicate Alike(a: string, b: string) {
    |a| == |b| && forall i :: 0 <= i < |a| ==> a[i] == b[i] || (a[i] in ".-" && b[i] in ".-")
  }

  function Dashed(d: string): string {
    ReplaceAll(d, '.', '-')
  }

  lemma DashedAlike(a: string, b: string)
    ensures Dashed(a) == Dashed(b) <==> Alike(a, b)
  {
    if Dashed(a) == Dashed(b) {
      forall i | 0 <= i < |a| ensures a[i] == b[i] || (a[i] in ".-" && b[i] in ".-") {
        assert Dashed(a)[i] == Dashed(b)[i];
      }
    }
  }

  /** The domain ends in a dot or a dash, which the name loses, or is empty, when it loses the prefix's. */
  predicate Cut(d: string) {
    d == "" || d[|d| - 1] in ".-"
  }

  /** The volume name of a domain: the prefix, the domain with dashes for dots, and no dash at the end that was one. */
  lemma VolumeNameIs(d: string)
    ensures VolumeName(d) == if Cut(d) then ("dnszone-" + Dashed(d))[..|d| + 7] else "dnszone-" + Dashed(d)
  {
    var whole := "dnszone-" + Dashed(d);
    assert |ZONE_PREFIX| == 8 && |whole| == |d| + 8;
    assert d != "" ==> whole[|whole| - 1] == Dashed(d)[|d| - 1];
    assert whole[|whole| - 1..] == [whole[|whole| - 1]];
  }

  /** A volume name is recognised as a zone's exactly if the domain is not empty. */
  lemma ZoneNameIff(d: string)
    ensures IsZoneName(VolumeName(d)) <==> d != ""
    ensures VolumeName(d) == "dnszone" <==> d == ""
  {
    VolumeNameIs(d);
    assert |"dnszone-"| == 8 && |"dnszone"| == 7;
    assert ("dnszone-" + Dashed(d))[..7] == "dnszone";
    if d != "" {
      assert ZONE_PREFIX <= VolumeName(d);
    }
  }

  /** Two domains share a volume name exactly if they are alike, or become so when one more dash is put to one of them. */
  lemma SameNameIff(d: string, e: string)
    requires d != "" && e != ""
    ensures VolumeName(d) == VolumeName(e) <==>
      Alike(d, e) || (Cut(d) && !Cut(e) && Alike(d, e + "-")) || (Cut(e) && !Cut(d) && Alike(e, d + "-"))
  {
    hide VolumeName, Alike, Cut;
    AlikeBoth(d, e);
    SameCut(d, e);
    SameCut(e, d);
  }

  lemma AlikeBoth(d: string, e: string)
    requires d != "" && e != ""
    ensures Alike(d, e) == Alike(e, d) && (Alike(d, e) ==> Cut(d) == Cut(e))
  {}

  lemma PrefixedAlike(d: string, e: string)
    ensures "dnszone-" + Dashed(d) == "dnszone-" + Dashed(e) <==> Alike(d, e)
  {
    hide Alike;
    DashedAlike(d, e);
    assert ("dnszone-" + Dashed(d))[8..] == Dashed(d) && ("dnszone-" + Dashed(e))[8..] == Dashed(e);
  }

  lemma MoreDash(e: string)
    ensures "dnszone-" + Dashed(e + "-") == "dnszone-" + Dashed(e) + "-"
  {
    assert Dashed(e + "-") == Dashed(e) + "-";
  }

  lemma CutDash(d: string)
    requires d != "" && Cut(d)
    ensures "dnszone-" + Dashed(d) == VolumeName(d) + "-"
  {
    VolumeNameIs(d);
    var whole := "dnszone-" + Dashed(d);
    assert |whole| == |d| + 8 && whole[|whole| - 1] == Dashed(d)[|d| - 1] == '-';
    assert whole == whole[..|whole| - 1] + [whole[|whole| - 1]];
  }

  lemma SameCut(d: string, e: string)
    requires d != "" && e != ""
    ensures Cut(d) == Cut(e) ==> (VolumeName(d) == VolumeName(e) <==> Alike(d, e))
    ensures Cut(d) && !Cut(e) ==> (VolumeName(d) == VolumeName(e) <==> Alike(d, e + "-"))
  {
    hide Alike, VolumeName, Dashed, Cut;
    VolumeNameIs(d);
    VolumeNameIs(e);
    PrefixedAlike(d, e);
    PrefixedAlike(d, e + "-");
    MoreDash(e);
    if Cut(d) {
      CutDash(d);
      LastCharSame(VolumeName(d), VolumeName(e));
    }
    if Cut(e) {
      CutDash(e);
    }
  }

  lemma LastCharSame(a: string, b: string)
    ensures a + "-" == b + "-" <==> a == b
  {
    assert (a + "-")[..|a|] == a && (b + "-")[..|b|] == b;
  }

  /** All names wanted for a list are zone names exactly if no domain of the list is empty. */
  lemma {:induction false} ZoneNamedIff(items: seq<ConfigMap>)
    requires forall cm <- items :: VolumeEntryOk(cm)
    ensures forall name <- DesiredOf(items) :: IsZoneName(name) || name == "dnszone"
    ensures ZoneNamed(DesiredOf(items)) <==> forall cm <- items :: cm.annotations["DomainName"] != ""
    ensures "dnszone" in DesiredOf(items) <==> !ZoneNamed(DesiredOf(items))
  {
    hide IsZoneName, VolumeName;
    if items != [] {
      var init, last := items[..|items| - 1], items[|items| - 1];
      assert items == init + [last] && last in items;
      ZoneNamedIff(init);
      ZoneNameIff(last.annotations["DomainName"]);
      NotAZone();
      assert DesiredOf(items).Keys == DesiredOf(init).Keys + {VolumeName(last.annotations["DomainName"])};
    }
  }

  lemma NotAZone()
    ensures !IsZoneName("dnszone")
  {
    assert |ZONE_PREFIX| == 8;
  }

  /** The name that the i-th ConfigMap asks for. */
  function WantedName(items: seq<ConfigMap>, i: nat): string
    requires (forall cm <- items :: VolumeEntryOk(cm)) && i < |items|
  {
    assert VolumeEntryOk(items[i]);
    VolumeName(items[i].annotations["DomainName"])
  }

  /** Later ConfigMaps win: each name stands for the last one of the list that wants it. */
  lemma {:induction false} LastWins(items: seq<ConfigMap>, i: nat)
    requires (forall cm <- items :: VolumeEntryOk(cm)) && i < |items|
    requires forall j :: i < j < |items| ==> WantedName(items, j) != WantedName(items, i)
    ensures WantedName(items, i) in DesiredOf(items)
    ensures DesiredOf(items)[WantedName(items, i)] == SourceOf(items[i])
  {
    hide VolumeName, SourceOf, VolumeEntryOk;
    if i < |items| - 1 {
      var init, k := items[..|items| - 1], |items| - 1;
      assert WantedName(items, i) == WantedName(init, i);
      forall j | i < j < |init| ensures WantedName(init, j) != WantedName(init, i) {
        assert WantedName(init, j) == WantedName(items, j);
      }
      LastWins(init, i);
      assert WantedName(items, k) != WantedName(items, i);
    }
  }

  // ---- a pass with what a list wants ----

  lemma {:induction false} AddedForeign(volumes: seq<Volume>, order: seq<string>, desired: map<string, ZoneSource>)
    requires forall name <- order :: name in desired
    ensures ForeignVolumes(volumes) <= ForeignVolumes(AddVolumes(volumes, order, desired))
    ensures ForeignVolumes(AddVolumes(volumes, order, desired)) == ForeignVolumes(volumes) <==>
      forall name <- order :: IsZoneName(name) || HasName(volumes, name)
  {
    hide IsZoneName;
    if order != [] {
      var init, last := order[..|order| - 1], order[|order| - 1];
      assert order == init + [last];
      AddedForeign(volumes, init, desired);
      var before := AddVolumes(volumes, init, desired);
      AddedNames(volumes, init, desired);
      var added := ZoneVolume(last, desired[last]);
      assert (before + [added])[..|before|] == before;
      assert HasName(before, last) <==> HasName(volumes, last) || last in init;
    }
  }

  lemma {:induction false} AddedNames(volumes: seq<Volume>, order: seq<string>, desired: map<string, ZoneSource>)
    requires forall name <- order :: name in desired
    ensures forall name :: HasName(AddVolumes(volumes, order, desired), name) <==> HasName(volumes, name) || name in order
  {
    if order != [] {
      var init, last := order[..|order| - 1], order[|order| - 1];
      assert order == init + [last];
      AddedNames(volumes, init, desired);
      var before, after := AddVolumes(volumes, init, desired), AddVolumes(volumes, order, desired);
      forall name ensures HasName(after, name) <==> HasName(before, name) || name == last {
        if name == last && !HasName(before, last) {
          assert ZoneVolume(last, desired[last]) in after;
        }
      }
    }
  }

  /**
   * What setZoneFileConifgMaps leaves of other people's volumes: all of them, in order, and nothing
   * else without the prefix; unless an empty domain puts its volume among them.
   */
  lemma OthersSurviveIff(volumes: seq<Volume>, items: seq<ConfigMap>, order: seq<string>)
    requires (forall cm <- items :: VolumeEntryOk(cm)) && IsOrderOf(order, DesiredOf(items).Keys)
    ensures forall name <- order :: name in DesiredOf(items)
    ensures ForeignVolumes(NewVolumes(volumes, order, DesiredOf(items))) == ForeignVolumes(volumes) <==>
      (forall cm <- items :: cm.annotations["DomainName"] != "") || HasName(volumes, "dnszone")
  {
    hide IsZoneName, DesiredOf, IsOrderOf;
    var desired := DesiredOf(items);
    Ordered(order, desired);
    ZoneNamedIff(items);
    NotAZone();
    KeptVolumesFacts(volumes, desired);
    AddedForeign(KeptVolumes(volumes, desired), order, desired);
    assert HasName(KeptVolumes(volumes, desired), "dnszone") <==> HasName(volumes, "dnszone");
  }

  lemma OtherMountsSurvive(mounts: seq<VolumeMount>, mountDir: string, items: seq<ConfigMap>, order: seq<string>)
    requires (forall cm <- items :: VolumeEntryOk(cm)) && IsOrderOf(order, DesiredOf(items).Keys)
    requires forall cm <- items :: cm.annotations["DomainName"] != ""
    ensures forall name <- order :: name in DesiredOf(items)
    ensures ForeignMounts(NewMounts(mounts, mountDir, order, DesiredOf(items))) == ForeignMounts(mounts)
  {
    hide DesiredOf, IsOrderOf, NewMounts;
    ZoneNamedIff(items);
    NewMountsLaw(mounts, mountDir, order, DesiredOf(items));
  }

  /**
   * Two passes: nothing that only the first list wanted is left after a pass with the second, in
   * volumes or mounts; except for what an empty domain left.
   */
  lemma NothingStaleLeft(volumes: seq<Volume>, mounts: seq<VolumeMount>, mountDir: string, items: seq<ConfigMap>,
                         order: seq<string>, later: seq<ConfigMap>, again: seq<string>)
    requires (forall cm <- items :: VolumeEntryOk(cm)) && IsOrderOf(order, DesiredOf(items).Keys)
    requires (forall cm <- later :: VolumeEntryOk(cm)) && IsOrderOf(again, DesiredOf(later).Keys)
    ensures (forall name <- order :: name in DesiredOf(items)) && forall name <- again :: name in DesiredOf(later)
    ensures var v := NewVolumes(NewVolumes(volumes, order, DesiredOf(items)), again, DesiredOf(later));
      forall name <- DesiredOf(items) :: HasName(v, name) ==> name in DesiredOf(later) || name == "dnszone"
    ensures var m := NewMounts(NewMounts(mounts, mountDir, order, DesiredOf(items)), mountDir, again, DesiredOf(later));
      forall mount <- m :: mount.name in DesiredOf(items) ==> mount.name in DesiredOf(later) || mount.name == "dnszone"
  {
    hide IsZoneName, DesiredOf, IsOrderOf, NewVolumes, NewMounts;
    Ordered(order, DesiredOf(items));
    ZoneNamedIff(items);
    NewVolumesLaw(NewVolumes(volumes, order, DesiredOf(items)), again, DesiredOf(later));
    NewMountsLaw(NewMounts(mounts, mountDir, order, DesiredOf(items)), mountDir, again, DesiredOf(later));
  }

  // ---- what a container reads ----

  /**
   * A file of the container comes from this key of this ConfigMap: by a mount at its path, the
   * volume of that name, and the item that the volume projects to the mount's sub-path.
   */
  ghost predicate Resolves(volumes: seq<Volume>, mounts: seq<VolumeMount>, path: string, cm: string, key: string) {
    exists m <- mounts, v <- volumes ::
      && m.mountPath == path && v.name == m.name
      && v.source.FromConfigMap? && v.source.name == cm && KeyToPath(key, m.subPath) in v.source.items
  }

  /** The file at the path is the zone file of one of these ConfigMaps with the domain, and no other, and cannot be written. */
  ghost predicate ReadsZone(volumes: seq<Volume>, mounts: seq<VolumeMount>, path: string, items: seq<ConfigMap>, d: string) {
    && (forall m <- mounts :: m.mountPath == path ==> m.readOnly)
    && exists cm <- items :: ZoneMapOk(cm) && DomainOf(cm) == d &&
         forall name, key :: Resolves(volumes, mounts, path, name, key) <==> name == cm.name && key == ZoneFileKey(d)
  }

  lemma BackedReads(volumes: seq<Volume>, mounts: seq<VolumeMount>, conn: ConnectorSpec, items: seq<ConfigMap>, d: string, cm: ConfigMap)
    requires forall x <- items :: VolumeEntryOk(x)
    requires CoherentVolumes(volumes, DesiredOf(items)) && CoherentMounts(mounts, conn.mountDir, DesiredOf(items))
    requires cm in items && Backed(volumes, mounts, conn, d, cm) && VolumeName(d) in DesiredOf(items)
    requires DesiredOf(items)[VolumeName(d)] == ZoneSource(cm.name, ZoneFileKey(d))
    ensures ReadsZone(volumes, mounts, conn.mountDir + "/" + ZoneFileKey(d), items, d)
  {
    hide VolumeName, ZoneFileKey, DesiredOf, ZoneMapOk;
    var path, name := conn.mountDir + "/" + ZoneFileKey(d), VolumeName(d);
    var m, v := ZoneMount(conn.mountDir, name, ZoneSource(cm.name, ZoneFileKey(d))), ZoneVolume(name, ZoneSource(cm.name, ZoneFileKey(d)));
    assert m in mounts && v in volumes && m.mountPath == path;
    assert v.source.items[0] == KeyToPath(ZoneFileKey(d), m.subPath);
    assert KeyToPath(ZoneFileKey(d), m.subPath) in v.source.items;
    assert Resolves(volumes, mounts, path, cm.name, ZoneFileKey(d));
  }
}
