/** The API objects the three controllers read and write, as values. */
module Objects {
  import opened Text

  datatype Option<+T> = None | Some(value: T)

  datatype Result<+T> = Ok(value: T) | Err(message: string)

  const READY := "Ready"

  /** metav1.Condition; `since` is LastTransitionTime. */
  datatype Condition = Condition(kind: string, status: bool, reason: string, message: string, generation: nat, since: int)

  /** meta.SetStatusCondition: the transition time moves only when the status does. */
  function SetStatusCondition(conditions: seq<Condition>, c: Condition): (r: seq<Condition>)
    ensures r != []
  {
    if conditions == [] then [c]
    else if conditions[0].kind == c.kind then
      [c.(since := if conditions[0].status == c.status then conditions[0].since else c.since)] + conditions[1..]
    else [conditions[0]] + SetStatusCondition(conditions[1..], c)
  }

  predicate IsReady(conditions: seq<Condition>) {
    exists c <- conditions :: c.kind == READY && c.status
  }

  datatype ConfigMap = ConfigMap(
    version: nat,
    name: string,
    owner: nat,
    finalizer: bool,
    annotations: map<string, string>,
    data: map<string, string>)

  datatype ConnectorSpec = ConnectorSpec(corefileKey: string, mountDir: string, plugins: seq<string>)

  /** EnsureFQDN (api/v1alpha1/dnsrecord_types.go). */
  function EnsureFQDN(name: string): (r: string)
    ensures HasSuffix(r, ".")
  {
    if HasSuffix(name, ".") then name else name + "."
  }

  function ZoneFileKey(domain: string): string {
    EnsureFQDN(domain) + "zone"
  }

  datatype ZoneSpec = ZoneSpec(
    domain: string,
    host: string,
    ip: string,
    kind: string,
    email: string,
    ttl: nat,
    refresh: nat,
    retry: nat,
    expire: nat,
    minimum: nat,
    connectorName: string)

  datatype ZoneStatus = ZoneStatus(
    conditions: seq<Condition>,
    currentZoneSerial: string,
    recordCount: nat,
    validationPassed: bool,
    zoneConfigmap: string,
    checkpoint: bool)

  datatype DNSZone = DNSZone(
    name: string,
    uid: nat,
    version: nat,
    generation: nat,
    deleting: bool,
    finalizer: bool,
    spec: ZoneSpec,
    status: ZoneStatus)

  datatype RecordSpec = RecordSpec(name: string, ttl: string, kind: string, value: string, zone: string)

  datatype RecordStatus = RecordStatus(conditions: seq<Condition>, validationPassed: bool, generatedRecord: string)

  datatype DNSRecord = DNSRecord(
    name: string,
    version: nat,
    generation: nat,
    deleting: bool,
    finalizer: bool,
    spec: RecordSpec,
    status: RecordStatus)

  datatype ProvisionedZone = ProvisionedZone(name: string, domain: string, serial: string)

  datatype ConnectorStatus = ConnectorStatus(conditions: seq<Condition>, provisioned: seq<ProvisionedZone>)

  datatype DNSConnector = DNSConnector(
    name: string,
    uid: nat,
    version: nat,
    generation: nat,
    deleting: bool,
    finalizer: bool,
    spec: ConnectorSpec,
    status: ConnectorStatus)
}
