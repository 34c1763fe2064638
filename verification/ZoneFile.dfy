/**
 * The zone file: header template, record list, and the comparison that ignores the serial
 * (internal/controller/dnszone_construction.go, dnszone_controller.go, dnsrecord_construction.go).
 */
module ZoneFile {
  import opened Text
  import opened Objects

  // ---- the header template ----

  /** DNSZoneHeader without its serial. */
  datatype Header = Header(
    origin: string,
    host: string,
    ip: string,
    kind: string,
    person: string,
    ttl: nat,
    refresh: nat,
    retry: nat,
    expire: nat,
    minimum: nat)

  function HeaderOf(z: ZoneSpec): Header {
    Header(EnsureFQDN(z.domain), z.host, z.ip, z.kind, z.email, z.ttl, z.refresh, z.retry, z.expire, z.minimum)
  }

  const ORIGIN := "$ORIGIN "
  const TTL := "$TTL "
  const SOA := "@ IN SOA "
  const NS := "@ IN NS "

  function SerialLine(serial: string): string {
    "\t" + serial + "     ; Serial"
  }

  /** The eleven lines of the header: SOA, NS, and the name server's address record. */
  function HeaderLines(h: Header, serial: string): seq<string> {
    [ ORIGIN + h.origin,
      TTL + Decimal(h.ttl) + "s",
      SOA + h.host + "." + h.origin + " " + h.person + ". (",
      SerialLine(serial),
      "\t" + Decimal(h.refresh) + "    ; Refresh",
      "\t" + Decimal(h.retry) + "      ; Retry",
      "\t" + Decimal(h.expire) + "     ; Expire",
      "\t" + Decimal(h.minimum) + " ; Minimum TTL",
      ")",
      NS + h.host + "." + h.origin,
      h.host + " IN " + h.kind + " " + h.ip ]
  }

  const SERIAL_LINE := 3
  const HEADER_LINES := 11

  function TemplateZoneHeader(h: Header, serial: string): string {
    Unlines(HeaderLines(h, serial))
  }

  function PrintZoneFile(h: Header, records: string, serial: string): string {
    TemplateZoneHeader(h, serial) + records
  }

  function ConstructZoneFile(z: ZoneSpec, records: string, serial: string): string {
    PrintZoneFile(HeaderOf(z), records, serial)
  }

  /** The Data of the zone ConfigMap (constructZoneConfigMap). */
  function ZoneData(z: ZoneSpec, records: string, serial: string): map<string, string> {
    map[ZoneFileKey(z.domain) := ConstructZoneFile(z, records, serial)]
  }

  // ---- one record ----

  /** constructRecord: the TTL is printed only if there is one. */
  function ConstructRecord(r: RecordSpec): string {
    r.name + (if r.ttl == "" then "" else " " + r.ttl) + " IN " + r.kind + " " + r.value
  }

  // ---- the list of records ----

  /** The byte order of Go strings, on which sort.Slice compares names. */
  predicate Before(a: string, b: string) {
    b != "" && (a == "" || a[0] < b[0] || (a[0] == b[0] && Before(a[1..], b[1..])))
  }

  predicate SortedByName(records: seq<DNSRecord>) {
    forall i, j :: 0 <= i < j < |records| ==> Before(records[i].name, records[j].name)
  }

  predicate UniqueNames(records: seq<DNSRecord>) {
    forall i, j :: 0 <= i < j < |records| ==> records[i].name != records[j].name
  }

  /** What getGoodDnsRecords returns: the validated records of the listing, in the order of their names. */
  ghost predicate GoodRecords(listing: seq<DNSRecord>, good: seq<DNSRecord>) {
    && SortedByName(good)
    && forall r :: r in good <==> r in listing && r.status.validationPassed
  }

  function Insert(sorted: seq<DNSRecord>, r: DNSRecord): seq<DNSRecord> {
    if sorted == [] || Before(r.name, sorted[0].name) then [r] + sorted
    else [sorted[0]] + Insert(sorted[1..], r)
  }

  lemma BeforeTransitive(a: string, b: string, c: string)
    requires Before(a, b) && Before(b, c)
    ensures Before(a, c)
  {
    if a != "" && a[0] == b[0] == c[0] {
      BeforeTransitive(a[1..], b[1..], c[1..]);
    }
  }

  lemma BeforeTotal(a: string, b: string)
    ensures a == b || Before(a, b) || Before(b, a)
    ensures !(Before(a, b) && Before(b, a)) && !Before(a, a)
  {
    if a != "" {
      BeforeTotal(a[1..], a[1..]);
    }
    if a != "" && b != "" {
      BeforeTotal(a[1..], b[1..]);
      assert a[0] == b[0] && a[1..] == b[1..] ==> a == [a[0]] + a[1..] == b;
    }
  }

  lemma {:induction false} InsertSorts(sorted: seq<DNSRecord>, r: DNSRecord)
    requires SortedByName(sorted) && forall s <- sorted :: s.name != r.name
    ensures SortedByName(Insert(sorted, r))
    ensures forall x :: x in Insert(sorted, r) <==> x in sorted || x == r
  {
    if sorted != [] {
      var head, rest := sorted[0], sorted[1..];
      assert sorted == [head] + rest && head in sorted;
      BeforeTotal(r.name, head.name);
      if Before(r.name, head.name) {
        forall s <- rest ensures Before(r.name, s.name) {
          BeforeTransitive(r.name, head.name, s.name);
        }
      } else {
        InsertSorts(rest, r);
        forall x <- Insert(rest, r) ensures Before(head.name, x.name) {
          assert x in rest || x == r;
        }
      }
    }
  }

  /** The append loop over the listing, and sort.Slice on the names. */
  method GetGoodRecords(listing: seq<DNSRecord>) returns (good: seq<DNSRecord>)
    requires UniqueNames(listing)
    ensures GoodRecords(listing, good)
  {
    good := [];
    for i := 0 to |listing|
      invariant GoodRecords(listing[..i], good)
    {
      var record := listing[i];
      assert listing[..i + 1] == listing[..i] + [record];
      if record.status.validationPassed {
        InsertSorts(good, record);
        good := Insert(good, record);
      }
    }
    assert listing[..|listing|] == listing;
  }

  function Generated(records: seq<DNSRecord>): seq<string> {
    if records == [] then []
    else Generated(records[..|records| - 1]) + [records[|records| - 1].status.generatedRecord]
  }

  datatype Baked = Baked(count: nat, text: string)

  /** bakeRecords: the generated records, newline-separated, and the number of lines. */
  method BakeRecords(records: seq<DNSRecord>) returns (b: Baked)
    ensures b.text == Join(Generated(records), '\n')
    ensures b.count == |Split(b.text, '\n')|
  {
    var text := "";
    for i := 0 to |records|
      invariant text == Join(Generated(records[..i]), '\n') + if 0 < i < |records| then "\n" else ""
    {
      assert records[..i + 1][..i] == records[..i];
      JoinMore(Generated(records[..i]), records[i].status.generatedRecord, '\n');
      GeneratedCount(records[..i]);
      text := text + records[i].status.generatedRecord;
      if i < |records| - 1 {
        text := text + "\n";
      }
    }
    assert records[..|records|] == records;
    b := Baked(|Split(text, '\n')|, text);
  }

  lemma {:induction false} GeneratedCount(records: seq<DNSRecord>)
    ensures |Generated(records)| == |records|
  {
    if records != [] {
      GeneratedCount(records[..|records| - 1]);
    }
  }

  // ---- ignoring the serial ----

  const SERIAL := "Serial"

  function BeforeTab(line: string): string {
    Split(line, '\t')[0]
  }

  function StripLine(line: string): string {
    if Contains(line, SERIAL) then BeforeTab(line) + " ; Serial" else line
  }

  function StripLines(lines: seq<string>): (r: seq<string>)
    ensures |r| == |lines|
    ensures forall i :: 0 <= i < |lines| ==> r[i] == StripLine(lines[i])
  {
    seq(|lines|, i requires 0 <= i < |lines| => StripLine(lines[i]))
  }

  function StripText(text: string): string {
    Join(StripLines(Split(text, '\n')), '\n')
  }

  method RemoveSerialNumber(zonefile: string) returns (r: string)
    ensures r == StripText(zonefile)
  {
    var lines := Split(zonefile, '\n');
    ghost var before := lines;
    for i := 0 to |lines|
      invariant |lines| == |before|
      invariant forall j :: 0 <= j < i ==> lines[j] == StripLine(before[j])
      invariant forall j :: i <= j < |lines| ==> lines[j] == before[j]
    {
      if Contains(lines[i], "Serial") {
        lines := lines[i := Split(lines[i], '\t')[0] + " ; Serial"];
      }
    }
    assert lines == StripLines(before);
    r := Join(lines, '\n');
  }

  function StripData(data: map<string, string>): map<string, string> {
    map key | key in data :: StripText(data[key])
  }

  method StripEntries(data: map<string, string>) returns (stripped: map<string, string>)
    ensures stripped == StripData(data)
  {
    stripped := data;
    var left := data.Keys;
    while left != {}
      invariant left <= data.Keys == stripped.Keys
      invariant forall key <- data :: stripped[key] == if key in left then data[key] else StripText(data[key])
      decreases left
    {
      var key :| key in left;
      var text := RemoveSerialNumber(stripped[key]);
      stripped := stripped[key := text];
      left := left - {key};
    }
  }

  /** compareZonefileConfigMaps: equal Data once the serial is removed from every entry. */
  method CompareZonefileConfigMaps(previous: map<string, string>, upcoming: map<string, string>) returns (same: bool)
    ensures same <==> StripData(previous) == StripData(upcoming)
  {
    var a := StripEntries(previous);
    var b := StripEntries(upcoming);
    same := a == b;
  }

  // ---- helpers on Join ----

  lemma {:induction false} JoinMore(parts: seq<string>, last: string, sep: char)
    ensures Join(parts + [last], sep) == Join(parts, sep) + (if parts == [] then "" else [sep]) + last
  {
    if |parts| >= 1 {
      assert (parts + [last])[1..] == parts[1..] + [last];
      JoinMore(parts[1..], last, sep);
      if |parts| == 1 {
        assert parts[1..] == [];
      }
    }
  }
}
