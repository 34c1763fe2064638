/**
 * The volume and mount reconciler: getDesiredVolumes and setZoneFileConifgMaps of
 * internal/controller/dnsconnector_construction.go.
 */
module PodTemplate {
  import opened Text
  import opened Objects
  import opened Corefile

  datatype KeyToPath = KeyToPath(key: string, path: string)

  datatype VolumeSource = FromConfigMap(name: string, items: seq<KeyToPath>) | OtherSource(id: string)

  datatype Volume = Volume(name: string, source: VolumeSource)

  datatype VolumeMount = VolumeMount(name: string, mountPath: string, subPath: string, readOnly: bool)

  datatype Container = Container(name: string, mounts: seq<VolumeMount>)

  datatype Template = Template(annotations: map<string, string>, volumes: seq<Volume>, containers: seq<Container>)

  /** The ConfigMap name and the zone-file key behind a volume. */
  datatype ZoneSource = ZoneSource(cm: string, key: string)

  const ZONE_PREFIX := "dnszone-"

  predicate IsZoneName(name: string) {
    ZONE_PREFIX <= name
  }

  function VolumeName(domain: string): string {
    TrimSuffix(ZONE_PREFIX + ReplaceAll(domain, '.', '-'), "-")
  }

  function MountPath(mountDir: string, key: string): string {
    mountDir + "/" + key
  }

  function ZoneVolume(name: string, source: ZoneSource): Volume {
    Volume(name, FromConfigMap(source.cm, [KeyToPath(source.key, source.key)]))
  }

  function ZoneMount(mountDir: string, name: string, source: ZoneSource): VolumeMount {
    VolumeMount(name, MountPath(mountDir, source.key), source.key, true)
  }

  // ---- what is wanted ----

  predicate VolumeEntryOk(cm: ConfigMap) {
    "DomainName" in cm.annotations && |cm.data| == 1
  }

  ghost function OnlyKey(data: map<string, string>): string
    requires |data| == 1
  {
    var key :| key in data;
    key
  }

  lemma OnlyKeyIs(data: map<string, string>, key: string)
    requires |data| == 1 && key in data
    ensures OnlyKey(data) == key && data.Keys == {key}
  {
    var rest := data.Keys - {key};
    assert |data.Keys| == 1;
    assert |rest| == 0;
  }

  ghost function SourceOf(cm: ConfigMap): ZoneSource
    requires VolumeEntryOk(cm)
  {
    ZoneSource(cm.name, OnlyKey(cm.data))
  }

  ghost function DesiredOf(items: seq<ConfigMap>): map<string, ZoneSource>
    requires forall cm <- items :: VolumeEntryOk(cm)
  {
    if items == [] then map[]
    else
      var last := items[|items| - 1];
      assert VolumeEntryOk(last);
      DesiredOf(items[..|items| - 1])[VolumeName(last.annotations["DomainName"]) := SourceOf(last)]
  }

  method GetDesiredVolumes(items: seq<ConfigMap>) returns (r: Result<map<string, ZoneSource>>)
    ensures r.Ok? <==> forall cm <- items :: VolumeEntryOk(cm)
    ensures r.Ok? ==> r.value == DesiredOf(items)
  {
    var desired: map<string, ZoneSource> := map[];
    for i := 0 to |items|
      invariant forall cm <- items[..i] :: VolumeEntryOk(cm)
      invariant desired == DesiredOf(items[..i])
    {
      var cm := items[i];
      if "DomainName" !in cm.annotations {
        assert !VolumeEntryOk(cm);
        return Err("configMap does not have a domain annotation");
      }
      if |cm.data| != 1 {
        assert !VolumeEntryOk(cm);
        return Err("configMap should contain only one key");
      }
      var volumeName := TrimSuffix("dnszone-" + ReplaceAll(cm.annotations["DomainName"], '.', '-'), "-");
      var key :| key in cm.data;
      OnlyKeyIs(cm.data, key);
      desired := desired[volumeName := ZoneSource(cm.name, key)];
      assert items[..i + 1][..i] == items[..i];
    }
    assert items[..|items|] == items;
    r := Ok(desired);
  }

  // ---- what the pass leaves ----

  predicate KeepName(name: string, desired: map<string, ZoneSource>) {
    !IsZoneName(name) || name in desired
  }

  function KeptVolumes(volumes: seq<Volume>, desired: map<string, ZoneSource>): seq<Volume> {
    if volumes == [] then []
    else
      var last := volumes[|volumes| - 1];
      KeptVolumes(volumes[..|volumes| - 1], desired) + if KeepName(last.name, desired) then [last] else []
  }

  function KeptMounts(mounts: seq<VolumeMount>, desired: map<string, ZoneSource>): seq<VolumeMount> {
    if mounts == [] then []
    else
      var last := mounts[|mounts| - 1];
      KeptMounts(mounts[..|mounts| - 1], desired) + if KeepName(last.name, desired) then [last] else []
  }

  function AddVolume(volumes: seq<Volume>, name: string, source: ZoneSource): seq<Volume> {
    if exists v <- volumes :: v.name == name then volumes else volumes + [ZoneVolume(name, source)]
  }

  function AddMount(mounts: seq<VolumeMount>, mountDir: string, name: string, source: ZoneSource): seq<VolumeMount> {
    if exists m <- mounts :: m.mountPath == MountPath(mountDir, source.key) then mounts
    else mounts + [ZoneMount(mountDir, name, source)]
  }

  function AddVolumes(volumes: seq<Volume>, order: seq<string>, desired: map<string, ZoneSource>): seq<Volume>
    requires forall name <- order :: name in desired
  {
    if order == [] then volumes
    else
      var last := order[|order| - 1];
      AddVolume(AddVolumes(volumes, order[..|order| - 1], desired), last, desired[last])
  }

  function AddMounts(mounts: seq<VolumeMount>, mountDir: string, order: seq<string>, desired: map<string, ZoneSource>)
    : seq<VolumeMount>
    requires forall name <- order :: name in desired
  {
    if order == [] then mounts
    else
      var last := order[|order| - 1];
      AddMount(AddMounts(mounts, mountDir, order[..|order| - 1], desired), mountDir, last, desired[last])
  }

  function NewVolumes(volumes: seq<Volume>, order: seq<string>, desired: map<string, ZoneSource>): seq<Volume>
    requires forall name <- order :: name in desired
  {
    AddVolumes(KeptVolumes(volumes, desired), order, desired)
  }

  function NewMounts(mounts: seq<VolumeMount>, mountDir: string, order: seq<string>, desired: map<string, ZoneSource>)
    : seq<VolumeMount>
    requires forall name <- order :: name in desired
  {
    AddMounts(KeptMounts(mounts, desired), mountDir, order, desired)
  }

  // ---- the pass, in place on the fetched object ----

  /** The pod template of the fetched Deployment, StatefulSet or DaemonSet. */
  class PodTemplateSpec {
    var annotations: map<string, string>
    var volumes: seq<Volume>
    var containers: seq<Container>

    constructor (t: Template)
      ensures annotations == t.annotations && volumes == t.volumes && containers == t.containers
    {
      annotations, volumes, containers := t.annotations, t.volumes, t.containers;
    }
  }

  method FilterVolumes(volumes: seq<Volume>, desired: map<string, ZoneSource>) returns (kept: seq<Volume>)
    ensures kept == KeptVolumes(volumes, desired)
  {
    kept := [];
    for i := 0 to |volumes|
      invariant kept == KeptVolumes(volumes[..i], desired)
    {
      assert volumes[..i + 1][..i] == volumes[..i];
      var volume := volumes[i];
      if "dnszone-" <= volume.name {
        if volume.name in desired {
          kept := kept + [volume];
        }
      } else {
        kept := kept + [volume];
      }
    }
    assert volumes[..|volumes|] == volumes;
  }

  method FilterMounts(mounts: seq<VolumeMount>, desired: map<string, ZoneSource>) returns (kept: seq<VolumeMount>)
    ensures kept == KeptMounts(mounts, desired)
  {
    kept := [];
    for i := 0 to |mounts|
      invariant kept == KeptMounts(mounts[..i], desired)
    {
      assert mounts[..i + 1][..i] == mounts[..i];
      var mount := mounts[i];
      if "dnszone-" <= mount.name {
        if mount.name in desired {
          kept := kept + [mount];
        }
      } else {
        kept := kept + [mount];
      }
    }
    assert mounts[..|mounts|] == mounts;
  }

  method VolumeExists(volumes: seq<Volume>, name: string) returns (found: bool)
    ensures found <==> exists v <- volumes :: v.name == name
  {
    for i := 0 to |volumes|
      invariant forall v <- volumes[..i] :: v.name != name
    {
      if volumes[i].name == name {
        return true;
      }
    }
    return false;
  }

  method MountExists(mounts: seq<VolumeMount>, path: string) returns (found: bool)
    ensures found <==> exists m <- mounts :: m.mountPath == path
  {
    for i := 0 to |mounts|
      invariant forall m <- mounts[..i] :: m.mountPath != path
    {
      if mounts[i].mountPath == path {
        return true;
      }
    }
    return false;
  }

  method AddMissing(volumes: seq<Volume>, mounts: seq<VolumeMount>, mountDir: string, desired: map<string, ZoneSource>)
    returns (newVolumes: seq<Volume>, newMounts: seq<VolumeMount>, order: seq<string>)
    ensures IsOrderOf(order, desired.Keys) && forall name <- order :: name in desired
    ensures newVolumes == AddVolumes(volumes, order, desired)
    ensures newMounts == AddMounts(mounts, mountDir, order, desired)
  {
    newVolumes, newMounts, order := volumes, mounts, [];
    var left := desired.Keys;
    while left != {}
      invariant left <= desired.Keys && IsOrderOf(order, desired.Keys - left)
      invariant forall name <- order :: name in desired
      invariant newVolumes == AddVolumes(volumes, order, desired)
      invariant newMounts == AddMounts(mounts, mountDir, order, desired)
      decreases left
    {
      hide IsOrderOf;
      var volumeName :| volumeName in left;
      var source := desired[volumeName];
      var volumeExists := VolumeExists(newVolumes, volumeName);
      var mountExists := MountExists(newMounts, mountDir + "/" + source.key);
      if !volumeExists {
        newVolumes := newVolumes + [ZoneVolume(volumeName, source)];
      }
      if !mountExists {
        newMounts := newMounts + [ZoneMount(mountDir, volumeName, source)];
      }
      GrowOrder(order, desired.Keys - left, volumeName);
      assert (order + [volumeName])[..|order|] == order;
      assert desired.Keys - left + {volumeName} == desired.Keys - (left - {volumeName});
      order := order + [volumeName];
      left := left - {volumeName};
    }
    assert desired.Keys - left == desired.Keys;
  }

  /** The API server accepts no pod template without a container, so index 0 exists. */
  method SetZoneFileConfigMaps(conn: ConnectorSpec, pod: PodTemplateSpec, items: seq<ConfigMap>, now: string)
    returns (ok: bool, order: seq<string>)
    requires |pod.containers| > 0
    modifies pod
    ensures ok <==> forall cm <- items :: VolumeEntryOk(cm)
    ensures pod.annotations == old(pod.annotations)["reconcilation-request" := now]
    ensures !ok ==> pod.volumes == old(pod.volumes) && pod.containers == old(pod.containers)
    ensures ok ==>
      var desired := DesiredOf(items);
      && IsOrderOf(order, desired.Keys) && (forall name <- order :: name in desired)
      && pod.volumes == NewVolumes(old(pod.volumes), order, desired)
      && var mounts := NewMounts(old(pod.containers[0].mounts), conn.mountDir, order, desired);
         && |pod.containers| == old(|pod.containers|)
         && forall i :: 0 <= i < |pod.containers| ==> pod.containers[i] == old(pod.containers[i]).(mounts := mounts)
  {
    order := [];
    pod.annotations := pod.annotations["reconcilation-request" := now];
    var wanted := GetDesiredVolumes(items);
    if wanted.Err? {
      return false, order;
    }
    var desired := wanted.value;
    var volumes := FilterVolumes(pod.volumes, desired);
    var mounts := FilterMounts(pod.containers[0].mounts, desired);
    volumes, mounts, order := AddMissing(volumes, mounts, conn.mountDir, desired);
    pod.volumes := volumes;
    for i := 0 to |pod.containers|
      invariant |pod.containers| == old(|pod.containers|)
      invariant pod.annotations == old(pod.annotations)["reconcilation-request" := now] && pod.volumes == volumes
      invariant forall j :: 0 <= j < i ==> pod.containers[j] == old(pod.containers[j]).(mounts := mounts)
      invariant forall j :: i <= j < |pod.containers| ==> pod.containers[j] == old(pod.containers[j])
    {
      pod.containers := pod.containers[i := pod.containers[i].(mounts := mounts)];
    }
    ok := true;
  }
}
