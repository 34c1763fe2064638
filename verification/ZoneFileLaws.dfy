/** The zone file read back, and what the serial-blind comparison decides. */
module ZoneFileLaws {
  import opened Text
  import opened Objects
  import opened ZoneFile

  // ---- the record list ----

  /** What a zone file takes from a record: the name it is sorted by, and the generated text. */
  datatype Entry = Entry(name: string, text: string)

  /** All that the file depends on. Versions, conditions and specs of the records are not in it. */
  ghost function Entries(records: seq<DNSRecord>): set<Entry> {
    set r <- records | r.status.validationPassed :: Entry(r.name, r.status.generatedRecord)
  }

  /**
   * The records section depends neither on the order in which List returns the records nor on
   * anything but the names and texts of the validated ones; from the same records it takes the
   * same list.
   */
  lemma {:induction false} GoodRecordsUnique(listing: seq<DNSRecord>, again: seq<DNSRecord>,
                                             good: seq<DNSRecord>, other: seq<DNSRecord>)
    requires GoodRecords(listing, good) && GoodRecords(again, other)
    ensures Entries(listing) == Entries(again) ==> Generated(good) == Generated(other)
    ensures (forall r: DNSRecord :: r.status.validationPassed ==> (r in listing <==> r in again)) ==> good == other
  {
    if Entries(listing) == Entries(again) {
      EntriesOfGood(listing, good);
      EntriesOfGood(again, other);
      SameEntriesSameText(good, other);
    }
    if forall r: DNSRecord :: r.status.validationPassed ==> (r in listing <==> r in again) {
      assert forall r :: r in good <==> r in other;
      SortedUnique(good, other);
    }
  }

  lemma EntriesOfGood(listing: seq<DNSRecord>, good: seq<DNSRecord>)
    requires GoodRecords(listing, good)
    ensures Entries(listing) == Entries(good) && forall r <- good :: r.status.validationPassed
  {}

  /** The record with nothing in it that the zone file does not show. */
  function Bare(e: Entry): DNSRecord {
    DNSRecord(e.name, 0, 0, false, false, RecordSpec("", "", "", "", ""), RecordStatus([], true, e.text))
  }

  function Bared(records: seq<DNSRecord>): seq<DNSRecord> {
    seq(|records|, i requires 0 <= i < |records| => Bare(Entry(records[i].name, records[i].status.generatedRecord)))
  }

  lemma BaredIn(records: seq<DNSRecord>, e: Entry)
    requires forall r <- records :: r.status.validationPassed
    ensures Bare(e) in Bared(records) <==> e in Entries(records)
  {
    if e in Entries(records) {
      var i :| 0 <= i < |records| && Entry(records[i].name, records[i].status.generatedRecord) == e;
      assert Bared(records)[i] == Bare(e);
    }
    if Bare(e) in Bared(records) {
      var i :| 0 <= i < |records| && Bared(records)[i] == Bare(e);
      assert records[i] in records;
    }
  }

  lemma {:induction false} BaredText(records: seq<DNSRecord>)
    ensures Generated(Bared(records)) == Generated(records)
  {
    if records != [] {
      var init := records[..|records| - 1];
      BaredText(init);
      assert Bared(records)[..|records| - 1] == Bared(init);
    }
  }

  lemma SameEntriesSameText(a: seq<DNSRecord>, b: seq<DNSRecord>)
    requires SortedByName(a) && SortedByName(b) && Entries(a) == Entries(b)
    requires (forall r <- a :: r.status.validationPassed) && forall r <- b :: r.status.validationPassed
    ensures Generated(a) == Generated(b)
  {
    hide Entries;
    forall r ensures r in Bared(a) <==> r in Bared(b) {
      var e := Entry(r.name, r.status.generatedRecord);
      BaredIn(a, e);
      BaredIn(b, e);
      assert r in Bared(a) ==> r == Bare(e);
      assert r in Bared(b) ==> r == Bare(e);
    }
    SortedUnique(Bared(a), Bared(b));
    BaredText(a);
    BaredText(b);
  }

  lemma {:induction false} SortedUnique(a: seq<DNSRecord>, b: seq<DNSRecord>)
    requires SortedByName(a) && SortedByName(b)
    requires forall r :: r in a <==> r in b
    ensures a == b
  {
    assert b != [] ==> b[0] in b;
    if a != [] {
      assert a[0] in a && a[0] in b && b[0] in b && b[0] in a;
      BeforeTotal(a[0].name, b[0].name);
      var i :| 0 <= i < |b| && b[i] == a[0];
      var j :| 0 <= j < |a| && a[j] == b[0];
      assert i == 0;
      assert a == [a[0]] + a[1..] && b == [b[0]] + b[1..];
      forall r ensures r in a[1..] <==> r in b[1..] {
        assert r in a <==> r == a[0] || r in a[1..];
        assert r in b <==> r == b[0] || r in b[1..];
        BeforeTotal(r.name, r.name);
      }
      SortedUnique(a[1..], b[1..]);
    }
  }

  function Newlines(s: string): nat {
    if s == "" then 0 else (if s[0] == '\n' then 1 else 0) + Newlines(s[1..])
  }

  function LineCount(texts: seq<string>): nat {
    if texts == [] then 0 else 1 + Newlines(texts[0]) + LineCount(texts[1..])
  }

  lemma {:induction false} SplitCount(s: string)
    ensures |Split(s, '\n')| == 1 + Newlines(s)
    ensures Newlines(s) == 0 <==> '\n' !in s
  {
    if s != "" {
      SplitCount(s[1..]);
      assert s == [s[0]] + s[1..];
    }
  }

  /** The count of a non-empty list is one plus the newlines of every record. */
  lemma {:induction false} BakeCount(texts: seq<string>)
    requires texts != []
    ensures |Split(Join(texts, '\n'), '\n')| == LineCount(texts)
    ensures LineCount(texts) == |texts| <==> forall t <- texts :: '\n' !in t
    ensures LineCount(texts) >= |texts|
  {
    SplitCount(texts[0]);
    if |texts| == 1 {
      assert texts[1..] == [];
    } else {
      BakeCount(texts[1..]);
      SplitAppend(texts[0], '\n', Join(texts[1..], '\n'));
      assert texts == [texts[0]] + texts[1..];
    }
  }

  /** Splitting the baked text returns the records exactly when none of them holds a newline. */
  lemma BakeRoundTrip(texts: seq<string>)
    requires texts != []
    ensures Split(Join(texts, '\n'), '\n') == texts <==> |Split(Join(texts, '\n'), '\n')| == |texts|
    ensures Split(Join(texts, '\n'), '\n') == texts <==> forall t <- texts :: '\n' !in t
  {
    BakeCount(texts);
    if forall t <- texts :: '\n' !in t {
      SplitJoin(texts, '\n');
    }
  }

  // ---- reading a record back ----

  /** Name, TTL and type are one word each. */
  predicate Worded(r: RecordSpec) {
    ' ' !in r.name && ' ' !in r.ttl && ' ' !in r.kind
  }

  /** Word by word: the name, the TTL if there is one, the class, the type, and then the value. */
  lemma RecordRoundTrip(r: RecordSpec)
    requires Worded(r)
    ensures Split(ConstructRecord(r), ' ') ==
      (if r.ttl == "" then [r.name, "IN", r.kind] else [r.name, r.ttl, "IN", r.kind]) + Split(r.value, ' ')
  {
    hide Split;
    var tail := "IN " + (r.kind + " " + r.value);
    SplitFirst("IN", ' ', r.kind + " " + r.value);
    SplitFirst(r.kind, ' ', r.value);
    assert tail == "IN" + " " + (r.kind + " " + r.value);
    if r.ttl == "" {
      SplitFirst(r.name, ' ', tail);
      assert ConstructRecord(r) == r.name + " " + tail;
    } else {
      SplitFirst(r.ttl, ' ', tail);
      SplitFirst(r.name, ' ', r.ttl + " " + tail);
      assert ConstructRecord(r) == r.name + " " + (r.ttl + " " + tail);
    }
  }

  /** What is printed of a record. */
  predicate PrintsSame(r: RecordSpec, q: RecordSpec) {
    r.name == q.name && r.ttl == q.ttl && r.kind == q.kind && r.value == q.value
  }

  /** The only way to misread a record: the class taken for a TTL, and the type for the class. */
  predicate Misread(r: RecordSpec, q: RecordSpec) {
    r.name == q.name && r.ttl == "" && r.kind == "IN" && q.ttl == "IN" && r.value == q.kind + " " + q.value
  }

  /** Records print alike exactly if they agree in all that is printed; no record type is called IN. */
  lemma PrintAlikeIff(r: RecordSpec, q: RecordSpec)
    requires Worded(r) && Worded(q)
    ensures ConstructRecord(r) == ConstructRecord(q) <==> PrintsSame(r, q) || Misread(r, q) || Misread(q, r)
    ensures r.kind != "IN" && q.kind != "IN" ==> (ConstructRecord(r) == ConstructRecord(q) <==> PrintsSame(r, q))
  {
    hide Split;
    MisreadPrints(r, q);
    MisreadPrints(q, r);
    RecordRoundTrip(r);
    RecordRoundTrip(q);
    if ConstructRecord(r) == ConstructRecord(q) {
      if (r.ttl == "") == (q.ttl == "") {
        ValuesSame(r, q);
      } else if r.ttl == "" {
        PrintedShort(r, q);
      } else {
        PrintedShort(q, r);
      }
    }
  }

  lemma MisreadPrints(r: RecordSpec, q: RecordSpec)
    ensures Misread(r, q) || PrintsSame(r, q) ==> ConstructRecord(r) == ConstructRecord(q)
  {
    if Misread(r, q) {
      assert ConstructRecord(r) == r.name + " IN IN " + (q.kind + " " + q.value);
      assert ConstructRecord(q) == r.name + " IN IN " + (q.kind + " " + q.value);
    }
  }

  lemma ValuesSame(r: RecordSpec, q: RecordSpec)
    requires Worded(r) && Worded(q) && ConstructRecord(r) == ConstructRecord(q) && ((r.ttl == "") == (q.ttl == ""))
    ensures PrintsSame(r, q)
  {
    hide Split, ConstructRecord;
    RecordRoundTrip(r);
    RecordRoundTrip(q);
    var a, b := Split(ConstructRecord(r), ' '), Split(ConstructRecord(q), ' ');
    var n := if r.ttl == "" then 3 else 4;
    assert a[0] == b[0] && a[1] == b[1] && a[2] == b[2] && a[n - 1] == b[n - 1];
    assert a[n..] == Split(r.value, ' ') && b[n..] == Split(q.value, ' ');
    JoinSplit(r.value, ' ');
    JoinSplit(q.value, ' ');
  }

  lemma PrintedShort(r: RecordSpec, q: RecordSpec)
    requires Worded(r) && Worded(q) && ConstructRecord(r) == ConstructRecord(q) && r.ttl == "" && q.ttl != ""
    ensures Misread(r, q)
  {
    hide Split, ConstructRecord;
    RecordRoundTrip(r);
    RecordRoundTrip(q);
    var a, b := Split(ConstructRecord(r), ' '), Split(ConstructRecord(q), ' ');
    assert a[0] == b[0] && a[1] == b[1] && a[2] == b[2];
    assert a[3..] == Split(r.value, ' ') && b[3..] == [q.kind] + Split(q.value, ' ');
    JoinSplit(r.value, ' ');
    SplitFirst(q.kind, ' ', q.value);
    JoinSplit(q.kind + " " + q.value, ' ');
  }

  // ---- reading a zone file back ----

  predicate OneLine(h: Header, serial: string) {
    && '\n' !in h.origin && '\n' !in h.host && '\n' !in h.ip && '\n' !in h.kind && '\n' !in h.person
    && '\n' !in serial
  }

  /** The record type is one word (the CRD allows A and AAAA). */
  predicate OneWord(kind: string) {
    ' ' !in kind
  }

  lemma DecimalOneLine(n: nat)
    ensures '\n' !in Decimal(n)
  {
    assert !IsDigit('\n');
  }

  lemma HeaderIsLines(h: Header, serial: string)
    requires OneLine(h, serial)
    ensures forall line <- HeaderLines(h, serial) :: '\n' !in line
  {
    hide Decimal;
    DecimalOneLine(h.ttl);
    DecimalOneLine(h.refresh);
    DecimalOneLine(h.retry);
    DecimalOneLine(h.expire);
    DecimalOneLine(h.minimum);
  }

  /** A printed file is the eleven header lines followed by the lines of the records. */
  lemma ZoneFileLines(h: Header, records: string, serial: string)
    requires OneLine(h, serial)
    ensures Split(PrintZoneFile(h, records, serial), '\n') == HeaderLines(h, serial) + Split(records, '\n')
  {
    HeaderIsLines(h, serial);
    SplitUnlines(HeaderLines(h, serial), records);
  }

  function Drop(s: string, n: nat): string {
    if n <= |s| then s[n..] else ""
  }

  function DropEnd(s: string, n: nat): string {
    if n <= |s| then s[..|s| - n] else ""
  }

  function ReadNumber(s: string): nat {
    if forall c <- s :: IsDigit(c) then ReadDecimal(s) else 0
  }

  function ReadHeader(lines: seq<string>): Header
    requires |lines| == HEADER_LINES
  {
    var origin := Drop(lines[0], |ORIGIN|);
    var host := DropEnd(Drop(lines[9], |NS|), 1 + |origin|);
    var address := Drop(lines[10], |host| + 4);
    var kind := Split(address, ' ')[0];
    Header(
      origin,
      host,
      Drop(address, |kind| + 1),
      kind,
      DropEnd(Drop(lines[2], |SOA| + |host| + 1 + |origin| + 1), 3),
      ReadNumber(DropEnd(Drop(lines[1], |TTL|), 1)),
      ReadNumber(DropEnd(Drop(lines[4], 1), 13)),
      ReadNumber(DropEnd(Drop(lines[5], 1), 13)),
      ReadNumber(DropEnd(Drop(lines[6], 1), 13)),
      ReadNumber(DropEnd(Drop(lines[7], 1), 14)))
  }

  datatype ReadBack = ReadBack(header: Header, serial: string, records: string)

  function ReadZoneFile(text: string): Option<ReadBack> {
    var lines := Split(text, '\n');
    if |lines| <= HEADER_LINES then None
    else Some(ReadBack(
      ReadHeader(lines[..HEADER_LINES]),
      DropEnd(Drop(lines[SERIAL_LINE], 1), 13),
      Join(lines[HEADER_LINES..], '\n')))
  }

  lemma Between(a: string, b: string, c: string)
    ensures DropEnd(Drop(a + b + c, |a|), |c|) == b
  {
    assert Drop(a + b + c, |a|) == b + c;
  }

  lemma NumberBetween(a: string, n: nat, c: string)
    ensures ReadNumber(DropEnd(Drop(a + Decimal(n) + c, |a|), |c|)) == n
  {
    Between(a, Decimal(n), c);
    DecimalRoundTrip(n);
  }

  lemma OriginBack(h: Header)
    ensures Drop(ORIGIN + h.origin, |ORIGIN|) == h.origin
  {}

  lemma HostBack(h: Header)
    ensures DropEnd(Drop(NS + h.host + "." + h.origin, |NS|), 1 + |h.origin|) == h.host
  {
    Between(NS, h.host, "." + h.origin);
    assert NS + h.host + "." + h.origin == NS + h.host + ("." + h.origin);
  }

  lemma PersonBack(h: Header)
    ensures DropEnd(Drop(SOA + h.host + "." + h.origin + " " + h.person + ". (", |SOA| + |h.host| + 1 + |h.origin| + 1), 3)
      == h.person
  {
    var front := SOA + h.host + "." + h.origin + " ";
    Between(front, h.person, ". (");
  }

  lemma AddressBack(h: Header)
    requires OneWord(h.kind)
    ensures var address := Drop(h.host + " IN " + h.kind + " " + h.ip, |h.host| + 4);
      Split(address, ' ')[0] == h.kind && Drop(address, |h.kind| + 1) == h.ip
  {
    var address := h.kind + " " + h.ip;
    assert h.host + " IN " + h.kind + " " + h.ip == h.host + " IN " + address;
    SplitFirst(h.kind, ' ', h.ip);
  }

  /** Everything but the serial line determines the header. */
  lemma HeaderBack(h: Header, serial: string, other: string)
    requires OneWord(h.kind)
    ensures ReadHeader(HeaderLines(h, serial)[SERIAL_LINE := other]) == h
  {
    hide Drop, DropEnd, ReadNumber, Split, Decimal, OneWord;
    OriginBack(h);
    HostBack(h);
    PersonBack(h);
    AddressBack(h);
    NumberBetween(TTL, h.ttl, "s");
    NumberBetween("\t", h.refresh, "    ; Refresh");
    NumberBetween("\t", h.retry, "      ; Retry");
    NumberBetween("\t", h.expire, "     ; Expire");
    NumberBetween("\t", h.minimum, " ; Minimum TTL");
  }

  /** Printing is reversible: header, serial and records are all recovered. */
  lemma PrintRoundTrip(h: Header, records: string, serial: string)
    requires OneLine(h, serial) && OneWord(h.kind)
    ensures ReadZoneFile(PrintZoneFile(h, records, serial)) == Some(ReadBack(h, serial, records))
  {
    ZoneFileLines(h, records, serial);
    var lines := HeaderLines(h, serial) + Split(records, '\n');
    HeaderBack(h, serial, SerialLine(serial));
    assert lines[..HEADER_LINES] == HeaderLines(h, serial)[SERIAL_LINE := SerialLine(serial)];
    assert lines[HEADER_LINES..] == Split(records, '\n');
    JoinSplit(records, '\n');
    Between("\t", serial, "     ; Serial");
  }

  /** The fields of a zone are one line each, and the record type one word. */
  predicate OneLineZone(z: ZoneSpec) {
    && '\n' !in z.domain && '\n' !in z.host && '\n' !in z.ip && '\n' !in z.email && '\n' !in z.kind && ' ' !in z.kind
  }

  /** The one key of the zone ConfigMap names the domain, with a dot at its end. */
  lemma OneKey(z: ZoneSpec, records: string, serial: string)
    ensures ZoneData(z, records, serial).Keys ==
      {(if z.domain != "" && z.domain[|z.domain| - 1] == '.' then z.domain else z.domain + ".") + "zone"}
    ensures ZoneData(z, records, serial).Values == {ConstructZoneFile(z, records, serial)}
  {
    FqdnIs(z.domain);
    assert ZoneFileKey(z.domain) in ZoneData(z, records, serial);
  }

  /** The file says what the spec says: read back, every field is where RFC 1035 puts it. */
  lemma SpecRoundTrip(z: ZoneSpec, records: string, serial: string)
    requires OneLineZone(z) && '\n' !in serial
    ensures var b := ReadZoneFile(ConstructZoneFile(z, records, serial));
      && b.Some? && b.value.serial == serial && b.value.records == records
      && b.value.header.origin == (if z.domain != "" && z.domain[|z.domain| - 1] == '.' then z.domain else z.domain + ".")
      && b.value.header.host == z.host && b.value.header.ip == z.ip && b.value.header.kind == z.kind
      && b.value.header.person == z.email && b.value.header.ttl == z.ttl && b.value.header.refresh == z.refresh
      && b.value.header.retry == z.retry && b.value.header.expire == z.expire && b.value.header.minimum == z.minimum
  {
    hide ReadZoneFile, PrintZoneFile;
    FqdnIs(z.domain);
    PrintRoundTrip(HeaderOf(z), records, serial);
  }

  /** Read word by word, the header names the server and the zone where RFC 1035 wants them. */
  lemma HeaderWords(z: ZoneSpec, records: string, serial: string)
    requires OneLineZone(z) && '\n' !in serial
    requires ' ' !in z.domain && ' ' !in z.host && ' ' !in z.ip && ' ' !in z.email
    ensures var lines := Split(ConstructZoneFile(z, records, serial), '\n');
      var origin := if z.domain != "" && z.domain[|z.domain| - 1] == '.' then z.domain else z.domain + ".";
      && |lines| > 10 && lines[8] == ")"
      && Split(lines[0], ' ') == ["$ORIGIN", origin]
      && Split(lines[2], ' ') == ["@", "IN", "SOA", z.host + "." + origin, z.email + ".", "("]
      && Split(lines[9], ' ') == ["@", "IN", "NS", z.host + "." + origin]
      && Split(lines[10], ' ') == [z.host, "IN", z.kind, z.ip]
  {
    hide Split, Decimal, ConstructZoneFile;
    FqdnIs(z.domain);
    var h := HeaderOf(z);
    ZoneFileLines(h, records, serial);
    assert ConstructZoneFile(z, records, serial) == PrintZoneFile(h, records, serial) by { SameFile(z, records, serial); }
    OriginWords(h);
    SoaWords(h);
    NsWords(h);
    AddressWords(h);
  }

  lemma SameFile(z: ZoneSpec, records: string, serial: string)
    ensures ConstructZoneFile(z, records, serial) == PrintZoneFile(HeaderOf(z), records, serial)
  {}

  lemma OriginWords(h: Header)
    requires ' ' !in h.origin
    ensures Split(ORIGIN + h.origin, ' ') == ["$ORIGIN", h.origin]
  {
    hide Split;
    TwoWords("$ORIGIN", h.origin);
    assert ORIGIN + h.origin == "$ORIGIN" + " " + h.origin;
  }

  lemma SoaWords(h: Header)
    requires ' ' !in h.host && ' ' !in h.origin && ' ' !in h.person
    ensures Split(SOA + h.host + "." + h.origin + " " + h.person + ". (", ' ') ==
      ["@", "IN", "SOA", h.host + "." + h.origin, h.person + ".", "("]
  {
    hide Split;
    var name := h.host + "." + h.origin;
    SixWords("@", "IN", "SOA", name, h.person + ".", "(");
    assert SOA + h.host + "." + h.origin + " " + h.person + ". (" ==
      "@" + " " + ("IN" + " " + ("SOA" + " " + (name + " " + (h.person + "." + " " + "("))));
  }

  lemma NsWords(h: Header)
    requires ' ' !in h.host && ' ' !in h.origin
    ensures Split(NS + h.host + "." + h.origin, ' ') == ["@", "IN", "NS", h.host + "." + h.origin]
  {
    hide Split;
    FourWords("@", "IN", "NS", h.host + "." + h.origin);
    assert NS + h.host + "." + h.origin == "@" + " " + ("IN" + " " + ("NS" + " " + (h.host + "." + h.origin)));
  }

  lemma AddressWords(h: Header)
    requires ' ' !in h.host && ' ' !in h.kind && ' ' !in h.ip
    ensures Split(h.host + " IN " + h.kind + " " + h.ip, ' ') == [h.host, "IN", h.kind, h.ip]
  {
    hide Split;
    FourWords(h.host, "IN", h.kind, h.ip);
    assert h.host + " IN " + h.kind + " " + h.ip == h.host + " " + ("IN" + " " + (h.kind + " " + h.ip));
  }

  lemma TwoWords(a: string, b: string)
    requires ' ' !in a && ' ' !in b
    ensures Split(a + " " + b, ' ') == [a, b]
  {
    SplitFirst(a, ' ', b);
    SplitAtom(b, ' ');
  }

  lemma FourWords(a: string, b: string, c: string, d: string)
    requires ' ' !in a && ' ' !in b && ' ' !in c && ' ' !in d
    ensures Split(a + " " + (b + " " + (c + " " + d)), ' ') == [a, b, c, d]
  {
    hide Split;
    TwoWords(c, d);
    SplitFirst(b, ' ', c + " " + d);
    SplitFirst(a, ' ', b + " " + (c + " " + d));
  }

  lemma SixWords(a: string, b: string, c: string, d: string, e: string, f: string)
    requires ' ' !in a && ' ' !in b && ' ' !in c && ' ' !in d && ' ' !in e && ' ' !in f
    ensures Split(a + " " + (b + " " + (c + " " + (d + " " + (e + " " + f)))), ' ') == [a, b, c, d, e, f]
  {
    hide Split;
    FourWords(c, d, e, f);
    SplitFirst(b, ' ', c + " " + (d + " " + (e + " " + f)));
    SplitFirst(a, ' ', b + " " + (c + " " + (d + " " + (e + " " + f))));
  }

  lemma FqdnIs(d: string)
    ensures EnsureFQDN(d) == if d != "" && d[|d| - 1] == '.' then d else d + "."
    ensures '\n' !in d ==> '\n' !in EnsureFQDN(d)
    ensures '\t' !in d ==> '\t' !in EnsureFQDN(d)
  {
    assert d != "" ==> d[|d| - 1..] == [d[|d| - 1]];
  }

  predicate Dotted(d: string) {
    d != "" && d[|d| - 1] == '.'
  }

  /** The same domain, with or without the dot at the end. */
  predicate SameDomain(a: string, b: string) {
    a == b || (!Dotted(b) && a == b + ".") || (!Dotted(a) && b == a + ".")
  }

  lemma SameOrigin(a: string, b: string)
    ensures EnsureFQDN(a) == EnsureFQDN(b) <==> SameDomain(a, b)
  {
    FqdnIs(a);
    FqdnIs(b);
    assert (a + ".")[..|a|] == a && (b + ".")[..|b|] == b;
  }

  // ---- stripping ----

  lemma {:induction false} ContainsMonotone(s: string, part: string, t: string)
    requires Contains(s, part)
    ensures Contains(s + t, part)
  {
    if part <= s {
      assert part <= s + t;
    } else {
      assert (s + t)[1..] == s[1..] + t;
      ContainsMonotone(s[1..], part, t);
    }
  }

  lemma {:induction false} BeforeTabKeeps(line: string)
    ensures BeforeTab(line) <= line
    ensures '\t' !in line ==> BeforeTab(line) == line
  {
    if line != "" {
      BeforeTabKeeps(line[1..]);
      assert line == [line[0]] + line[1..];
    }
  }

  /** Two lines the comparison cannot tell apart. */
  predicate Confused(a: string, b: string) {
    a == b || (Contains(a, SERIAL) && Contains(b, SERIAL) && BeforeTab(a) == BeforeTab(b))
  }

  lemma StripConfuses(a: string, b: string)
    ensures StripLine(a) == StripLine(b) <==> Confused(a, b)
  {
    StrippedHasSerial(a);
    StrippedHasSerial(b);
    if Contains(a, SERIAL) && Contains(b, SERIAL) && StripLine(a) == StripLine(b) {
      assert StripLine(a)[..|StripLine(a)| - 9] == BeforeTab(a);
      assert StripLine(b)[..|StripLine(b)| - 9] == BeforeTab(b);
    }
  }

  lemma StrippedHasSerial(a: string)
    ensures Contains(StripLine(a), SERIAL) <==> Contains(a, SERIAL)
  {
    if Contains(a, SERIAL) {
      ContainsIn(BeforeTab(a) + " ; ", SERIAL, "");
      assert BeforeTab(a) + " ; Serial" == BeforeTab(a) + " ; " + SERIAL + "";
    }
  }

  lemma SerialLineStripped(serial: string)
    ensures StripLine(SerialLine(serial)) == " ; Serial"
  {
    var line := SerialLine(serial);
    ContainsIn("\t" + serial + "     ; ", SERIAL, "");
    assert line == "\t" + serial + "     ; " + SERIAL + "";
    assert line == "" + "\t" + (serial + "     ; Serial");
    SplitFirst("", '\t', serial + "     ; Serial");
  }

  lemma StrippedLinesOneLine(text: string)
    ensures forall line <- StripLines(Split(text, '\n')) :: '\n' !in line
  {
    var lines := Split(text, '\n');
    forall line <- StripLines(lines) ensures '\n' !in line {
      var i :| 0 <= i < |lines| && line == StripLine(lines[i]);
      BeforeTabKeeps(lines[i]);
      assert lines[i] in lines;
    }
  }

  lemma StripTextIff(a: string, b: string)
    ensures StripText(a) == StripText(b) <==> StripLines(Split(a, '\n')) == StripLines(Split(b, '\n'))
  {
    StrippedLinesOneLine(a);
    StrippedLinesOneLine(b);
    SplitJoin(StripLines(Split(a, '\n')), '\n');
    SplitJoin(StripLines(Split(b, '\n')), '\n');
  }

  /** All lines but the serial line. */
  ghost predicate SameOutsideSerial(a: seq<string>, b: seq<string>) {
    |a| == |b| && forall i :: 0 <= i < |a| && i != SERIAL_LINE ==> a[i] == b[i]
  }

  ghost predicate ConfusedOutsideSerial(a: seq<string>, b: seq<string>) {
    |a| == |b| && forall i :: 0 <= i < |a| && i != SERIAL_LINE ==> Confused(a[i], b[i])
  }

  /** Exactly when two printed files compare equal, for any records and any serials. */
  lemma SameIffConfused(h: Header, records: string, serial: string, k: Header, others: string, newSerial: string)
    requires OneLine(h, serial) && OneLine(k, newSerial)
    ensures StripText(PrintZoneFile(h, records, serial)) == StripText(PrintZoneFile(k, others, newSerial)) <==>
      ConfusedOutsideSerial(HeaderLines(h, serial) + Split(records, '\n'), HeaderLines(k, newSerial) + Split(others, '\n'))
  {
    hide StripText, PrintZoneFile, StripLine, Confused;
    StripTextIff(PrintZoneFile(h, records, serial), PrintZoneFile(k, others, newSerial));
    ZoneFileLines(h, records, serial);
    ZoneFileLines(k, others, newSerial);
    var a, b := HeaderLines(h, serial) + Split(records, '\n'), HeaderLines(k, newSerial) + Split(others, '\n');
    SerialLineStripped(serial);
    SerialLineStripped(newSerial);
    assert a[SERIAL_LINE] == SerialLine(serial) && b[SERIAL_LINE] == SerialLine(newSerial);
    StripLinesIff(a, b);
  }

  lemma StripLinesIff(a: seq<string>, b: seq<string>)
    requires |a| > SERIAL_LINE && |b| > SERIAL_LINE && StripLine(a[SERIAL_LINE]) == StripLine(b[SERIAL_LINE])
    ensures StripLines(a) == StripLines(b) <==> ConfusedOutsideSerial(a, b)
  {
    hide StripLine, Confused;
    if |a| == |b| {
      forall i | 0 <= i < |a| ensures StripLine(a[i]) == StripLine(b[i]) <==> Confused(a[i], b[i]) {
        StripConfuses(a[i], b[i]);
      }
      assert StripLines(a) == StripLines(b) <==> forall i :: 0 <= i < |a| ==> StripLines(a)[i] == StripLines(b)[i];
    }
  }

  /** No line hides text behind a tab that the comparison would drop. */
  predicate SerialSafe(text: string) {
    forall line <- Split(text, '\n') :: Contains(line, SERIAL) ==> '\t' !in line
  }

  /** The free-text fields of a header hold no tab; the numeric lines never hold the word. */
  predicate TabFree(h: Header) {
    '\t' !in h.origin && '\t' !in h.host && '\t' !in h.ip && '\t' !in h.kind && '\t' !in h.person
  }

  lemma {:induction false} NoCapitalS(s: string)
    requires 'S' !in s
    ensures !Contains(s, SERIAL)
  {
    assert SERIAL[0] == 'S';
    if s != "" {
      NoCapitalS(s[1..]);
    }
  }

  lemma NumericLine(n: nat, tail: string)
    requires 'S' !in tail
    ensures !Contains("\t" + Decimal(n) + tail, SERIAL)
  {
    assert !IsDigit('S');
    NoCapitalS("\t" + Decimal(n) + tail);
  }

  /** A line whose text the comparison sees whole. */
  predicate Visible(line: string) {
    Contains(line, SERIAL) ==> '\t' !in line
  }

  lemma VisibleNotConfused(a: string, b: string)
    requires Visible(a) && Visible(b) && Confused(a, b)
    ensures a == b
  {
    BeforeTabKeeps(a);
    BeforeTabKeeps(b);
  }

  lemma VisibleHeader(h: Header, serial: string)
    requires TabFree(h)
    ensures forall i :: 0 <= i < HEADER_LINES && i != SERIAL_LINE ==> Visible(HeaderLines(h, serial)[i])
  {
    hide Decimal, Contains;
    assert !IsDigit('\t');
    NumericLine(h.refresh, "    ; Refresh");
    NumericLine(h.retry, "      ; Retry");
    NumericLine(h.expire, "     ; Expire");
    NumericLine(h.minimum, " ; Minimum TTL");
  }

  lemma VisibleFile(h: Header, records: string, serial: string)
    requires TabFree(h) && SerialSafe(records)
    ensures var lines := HeaderLines(h, serial) + Split(records, '\n');
      forall i :: 0 <= i < |lines| && i != SERIAL_LINE ==> Visible(lines[i])
  {
    hide HeaderLines, Visible;
    VisibleHeader(h, serial);
    VisibleRecords(records);
    HeaderSize(h, serial);
    var lines := HeaderLines(h, serial) + Split(records, '\n');
    forall i | 0 <= i < |lines| && i != SERIAL_LINE ensures Visible(lines[i]) {
      if i >= HEADER_LINES {
        assert lines[i] in Split(records, '\n');
      }
    }
  }

  lemma VisibleRecords(records: string)
    requires SerialSafe(records)
    ensures forall line <- Split(records, '\n') :: Visible(line)
  {}

  lemma HeaderSize(h: Header, serial: string)
    ensures |HeaderLines(h, serial)| == HEADER_LINES
  {}

  lemma SameOutsideSerialIff(h: Header, records: string, serial: string, k: Header, others: string, newSerial: string)
    requires OneWord(h.kind) && OneWord(k.kind)
    ensures SameOutsideSerial(HeaderLines(h, serial) + Split(records, '\n'), HeaderLines(k, newSerial) + Split(others, '\n'))
      <==> h == k && records == others
  {
    hide HeaderLines, OneWord;
    HeaderSize(h, serial);
    HeaderSize(k, newSerial);
    var a, b := HeaderLines(h, serial) + Split(records, '\n'), HeaderLines(k, newSerial) + Split(others, '\n');
    if SameOutsideSerial(a, b) {
      assert HeaderLines(h, serial)[SERIAL_LINE := ""] == a[..HEADER_LINES][SERIAL_LINE := ""];
      assert HeaderLines(k, newSerial)[SERIAL_LINE := ""] == b[..HEADER_LINES][SERIAL_LINE := ""];
      assert a[..HEADER_LINES][SERIAL_LINE := ""] == b[..HEADER_LINES][SERIAL_LINE := ""];
      HeaderBack(h, serial, "");
      HeaderBack(k, newSerial, "");
      assert Split(records, '\n') == a[HEADER_LINES..] == b[HEADER_LINES..] == Split(others, '\n');
      JoinSplit(records, '\n');
      JoinSplit(others, '\n');
    }
    if h == k && records == others {
      OnlySerialDiffers(h, serial, newSerial);
    }
  }

  lemma OnlySerialDiffers(h: Header, serial: string, newSerial: string)
    ensures HeaderLines(h, newSerial) == HeaderLines(h, serial)[SERIAL_LINE := SerialLine(newSerial)]
  {
    hide Decimal;
  }

  /** Change detection: equal up to the serial exactly when header and records are the same. */
  lemma ChangeDetection(h: Header, records: string, serial: string, k: Header, others: string, newSerial: string)
    requires OneLine(h, serial) && OneLine(k, newSerial) && OneWord(h.kind) && OneWord(k.kind)
    requires TabFree(h) && TabFree(k) && SerialSafe(records) && SerialSafe(others)
    ensures StripText(PrintZoneFile(h, records, serial)) == StripText(PrintZoneFile(k, others, newSerial)) <==>
      h == k && records == others
  {
    hide StripText, PrintZoneFile, HeaderLines, Visible, Confused, SerialSafe, TabFree;
    SameIffConfused(h, records, serial, k, others, newSerial);
    SameOutsideSerialIff(h, records, serial, k, others, newSerial);
    VisibleFile(h, records, serial);
    VisibleFile(k, others, newSerial);
    var a, b := HeaderLines(h, serial) + Split(records, '\n'), HeaderLines(k, newSerial) + Split(others, '\n');
    if ConfusedOutsideSerial(a, b) {
      forall i | 0 <= i < |a| && i != SERIAL_LINE ensures a[i] == b[i] {
        VisibleNotConfused(a[i], b[i]);
      }
    }
    if SameOutsideSerial(a, b) {
      forall i | 0 <= i < |a| && i != SERIAL_LINE ensures Confused(a[i], b[i]) {
        SameConfused(a[i]);
      }
    }
  }

  lemma SameConfused(a: string)
    ensures Confused(a, a)
  {}

  /** No field of a zone holds a tab. */
  predicate TabFreeZone(z: ZoneSpec) {
    '\t' !in z.domain && '\t' !in z.host && '\t' !in z.ip && '\t' !in z.email && '\t' !in z.kind
  }

  /** All that the file shows of a zone is the same. */
  predicate SameShown(z: ZoneSpec, y: ZoneSpec) {
    && SameDomain(z.domain, y.domain)
    && z.host == y.host && z.ip == y.ip && z.kind == y.kind && z.email == y.email
    && z.ttl == y.ttl && z.refresh == y.refresh && z.retry == y.retry && z.expire == y.expire && z.minimum == y.minimum
  }

  lemma SameHeaderIff(z: ZoneSpec, y: ZoneSpec)
    ensures HeaderOf(z) == HeaderOf(y) <==> SameShown(z, y)
  {
    SameOrigin(z.domain, y.domain);
  }

  /** At the ConfigMap's Data: an update is due exactly when a field of the spec or the records changed. */
  lemma UpdateDueIff(z: ZoneSpec, records: string, serial: string, y: ZoneSpec, others: string, newSerial: string)
    requires OneLineZone(z) && OneLineZone(y) && '\n' !in serial && '\n' !in newSerial
    requires TabFreeZone(z) && TabFreeZone(y) && SerialSafe(records) && SerialSafe(others)
    ensures StripData(ZoneData(z, records, serial)) == StripData(ZoneData(y, others, newSerial)) <==>
      SameShown(z, y) && records == others
  {
    hide StripText, PrintZoneFile, SerialSafe, SameShown;
    FqdnIs(z.domain);
    FqdnIs(y.domain);
    SameHeaderIff(z, y);
    ChangeDetection(HeaderOf(z), records, serial, HeaderOf(y), others, newSerial);
    StrippedZoneData(z, records, serial);
    StrippedZoneData(y, others, newSerial);
    var a, b := map[ZoneFileKey(z.domain) := StripText(ConstructZoneFile(z, records, serial))],
                map[ZoneFileKey(y.domain) := StripText(ConstructZoneFile(y, others, newSerial))];
    assert ZoneFileKey(z.domain) in a && ZoneFileKey(y.domain) in b;
    if a == b {
      assert ZoneFileKey(z.domain) in b;
    }
  }

  lemma StrippedZoneData(z: ZoneSpec, records: string, serial: string)
    ensures StripData(ZoneData(z, records, serial)) ==
      map[ZoneFileKey(z.domain) := StripText(ConstructZoneFile(z, records, serial))]
  {
    hide StripText, ConstructZoneFile, ZoneFileKey;
  }

  /** In a record line with the word, whatever follows a tab can change without being noticed. */
  lemma ChangeMissedBehindTab(h: Header, a: string, b: string, serial: string, newSerial: string)
    requires OneLine(h, serial) && OneLine(h, newSerial) && '\n' !in a && '\n' !in b
    ensures StripText(PrintZoneFile(h, SERIAL + "\t" + a, serial)) == StripText(PrintZoneFile(h, SERIAL + "\t" + b, newSerial))
  {
    hide StripText, PrintZoneFile, HeaderLines, OneLine, Confused;
    SameIffConfused(h, SERIAL + "\t" + a, serial, h, SERIAL + "\t" + b, newSerial);
    HeaderSize(h, serial);
    OnlySerialDiffers(h, serial, newSerial);
    TabConfuses(a, b);
    var x, y := HeaderLines(h, serial) + [SERIAL + "\t" + a], HeaderLines(h, newSerial) + [SERIAL + "\t" + b];
    forall i | 0 <= i < |x| && i != SERIAL_LINE ensures Confused(x[i], y[i]) {
      SameConfused(x[i]);
    }
  }

  lemma TabConfuses(a: string, b: string)
    requires '\n' !in a && '\n' !in b
    ensures Split(SERIAL + "\t" + a, '\n') == [SERIAL + "\t" + a] && Split(SERIAL + "\t" + b, '\n') == [SERIAL + "\t" + b]
    ensures Confused(SERIAL + "\t" + a, SERIAL + "\t" + b)
  {
    SplitAtom(SERIAL + "\t" + a, '\n');
    SplitAtom(SERIAL + "\t" + b, '\n');
    assert SERIAL <= SERIAL + "\t" + a && SERIAL <= SERIAL + "\t" + b;
    SplitFirst(SERIAL, '\t', a);
    SplitFirst(SERIAL, '\t', b);
  }

  lemma TabAdded(line: string)
    requires Contains(line, SERIAL)
    ensures Confused(line, line + "\t")
  {
    ContainsMonotone(line, SERIAL, "\t");
    SplitAppend(line, '\t', "");
    assert line + ['\t'] + "" == line + "\t";
  }

  /** A change of the records that the comparison does not see: a tab after a line with the word. */
  lemma TabMissed(h: Header, records: string, serial: string, newSerial: string, i: nat) returns (others: string)
    requires OneLine(h, serial) && OneLine(h, newSerial)
    requires i < |Split(records, '\n')| && Contains(Split(records, '\n')[i], SERIAL)
    ensures others != records
    ensures StripText(PrintZoneFile(h, records, serial)) == StripText(PrintZoneFile(h, others, newSerial))
  {
    hide StripText, PrintZoneFile, HeaderLines, OneLine, Confused, Contains;
    var lines := Split(records, '\n');
    var changed := lines[i := lines[i] + "\t"];
    others := Join(changed, '\n');
    forall line <- changed ensures '\n' !in line {
      assert line in lines || line == lines[i] + "\t";
    }
    SplitJoin(changed, '\n');
    SameIffConfused(h, records, serial, h, others, newSerial);
    HeaderSize(h, serial);
    OnlySerialDiffers(h, serial, newSerial);
    TabAdded(lines[i]);
    var x, y := HeaderLines(h, serial) + lines, HeaderLines(h, newSerial) + changed;
    forall k | 0 <= k < |x| && k != SERIAL_LINE ensures Confused(x[k], y[k]) {
      SameConfused(x[k]);
    }
    assert changed[i] != lines[i];
  }

  lemma NoWordNoMiss(h: Header, records: string, serial: string, others: string, newSerial: string)
    requires OneLine(h, serial) && OneLine(h, newSerial)
    requires forall line <- Split(records, '\n') :: !Contains(line, SERIAL)
    requires StripText(PrintZoneFile(h, records, serial)) == StripText(PrintZoneFile(h, others, newSerial))
    ensures others == records
  {
    hide StripText, PrintZoneFile, HeaderLines, OneLine, Contains;
    SameIffConfused(h, records, serial, h, others, newSerial);
    HeaderSize(h, serial);
    HeaderSize(h, newSerial);
    var a, b := Split(records, '\n'), Split(others, '\n');
    var x, y := HeaderLines(h, serial) + a, HeaderLines(h, newSerial) + b;
    forall i | 0 <= i < |a| ensures a[i] == b[i] {
      assert Confused(x[HEADER_LINES + i], y[HEADER_LINES + i]);
      assert a[i] in a;
    }
    assert a == b;
    JoinSplit(records, '\n');
    JoinSplit(others, '\n');
  }

  /** Seen from the stored side alone: every change away from `records` is noticed exactly if no line of it holds the word. */
  lemma EveryChangeNoticedIff(h: Header, records: string, serial: string, newSerial: string)
    requires OneLine(h, serial) && OneLine(h, newSerial)
    ensures (forall others ::
               StripText(PrintZoneFile(h, records, serial)) == StripText(PrintZoneFile(h, others, newSerial)) ==> others == records)
      <==> forall line <- Split(records, '\n') :: !Contains(line, SERIAL)
  {
    hide StripText, PrintZoneFile, OneLine, Contains;
    if line :| line in Split(records, '\n') && Contains(line, SERIAL) {
      var i :| 0 <= i < |Split(records, '\n')| && Split(records, '\n')[i] == line;
      var others := TabMissed(h, records, serial, newSerial, i);
    } else {
      forall others | StripText(PrintZoneFile(h, records, serial)) == StripText(PrintZoneFile(h, others, newSerial))
        ensures others == records
      {
        NoWordNoMiss(h, records, serial, others, newSerial);
      }
    }
  }

  // ---- no spurious moves ----

  lemma {:induction false} UnlinesLast(lines: seq<string>)
    requires lines != []
    ensures Unlines(lines) == Join(lines, '\n') + "\n"
  {
    if |lines| > 1 {
      UnlinesLast(lines[1..]);
    } else {
      assert lines[1..] == [];
    }
  }

  lemma {:induction false} UnlinesAppend(a: seq<string>, b: seq<string>)
    ensures Unlines(a + b) == Unlines(a) + Unlines(b)
  {
    if a == [] {
      assert a + b == b;
    } else {
      assert (a + b)[1..] == a[1..] + b;
      UnlinesAppend(a[1..], b);
    }
  }

  lemma StripAppend(a: seq<string>, b: seq<string>)
    ensures StripLines(a + b) == StripLines(a) + StripLines(b)
  {
    hide StripLine;
  }

  /** The serial alone never makes two files differ, whatever the other fields hold. */
  lemma SerialBlind(h: Header, records: string, serial: string, newSerial: string)
    requires '\n' !in serial && '\n' !in newSerial
    ensures StripText(PrintZoneFile(h, records, serial)) == StripText(PrintZoneFile(h, records, newSerial))
  {
    hide HeaderLines, StripText, StripLines, Unlines;
    HeaderSize(h, serial);
    var lines := HeaderLines(h, serial);
    var top, rest := lines[..SERIAL_LINE], Unlines(lines[SERIAL_LINE + 1..]) + records;
    OnlySerialDiffers(h, serial, serial);
    OnlySerialDiffers(h, serial, newSerial);
    SplitAtSerial(top, serial, lines[SERIAL_LINE + 1..], records);
    SplitAtSerial(top, newSerial, lines[SERIAL_LINE + 1..], records);
    assert lines == top + [SerialLine(serial)] + lines[SERIAL_LINE + 1..];
    assert HeaderLines(h, newSerial) == top + [SerialLine(newSerial)] + lines[SERIAL_LINE + 1..];
    StripTextIff(PrintZoneFile(h, records, serial), PrintZoneFile(h, records, newSerial));
  }

  lemma SplitAtSerial(top: seq<string>, serial: string, bottom: seq<string>, records: string)
    requires top != [] && '\n' !in serial
    ensures StripLines(Split(Unlines(top + [SerialLine(serial)] + bottom) + records, '\n')) ==
      StripLines(Split(Join(top, '\n'), '\n')) + [" ; Serial"] + StripLines(Split(Unlines(bottom) + records, '\n'))
  {
    hide StripLines, StripLine, Unlines;
    var line, head, rest := SerialLine(serial), Join(top, '\n'), Unlines(bottom) + records;
    UnlinesAppend(top + [line], bottom);
    UnlinesAppend(top, [line]);
    UnlinesLast(top);
    UnlinesLast([line]);
    assert Unlines(top + [line] + bottom) + records == head + "\n" + (line + "\n" + rest);
    SplitAppend(head, '\n', line + "\n" + rest);
    SplitFirst(line, '\n', rest);
    assert Split(head, '\n') + ([line] + Split(rest, '\n')) == Split(head, '\n') + [line] + Split(rest, '\n');
    StripAppend(Split(head, '\n') + [line], Split(rest, '\n'));
    StripAppend(Split(head, '\n'), [line]);
    SerialLineStripped(serial);
    StripOne(line);
  }

  lemma StripOne(line: string)
    ensures StripLines([line]) == [StripLine(line)]
  {
    hide StripLine;
  }

  /** The decision of one zone pass: keep the stored Data, or replace it. */
  function NextData(validate: string -> bool, z: ZoneSpec, records: string, serial: string,
                    stored: Option<map<string, string>>): Option<map<string, string>> {
    var upcoming := ZoneData(z, records, serial);
    if !validate(ConstructZoneFile(z, records, serial)) then stored
    else if stored.Some? && StripData(stored.value) == StripData(upcoming) then stored
    else Some(upcoming)
  }

  datatype ZonePass = ZonePass(listing: seq<DNSRecord>, good: seq<DNSRecord>, serial: string)

  ghost predicate ZonePasses(validate: string -> bool, z: ZoneSpec, stores: seq<Option<map<string, string>>>,
                             passes: seq<ZonePass>) {
    && |stores| == |passes| + 1
    && forall i :: 0 <= i < |passes| ==>
         && GoodRecords(passes[i].listing, passes[i].good)
         && '\n' !in passes[i].serial
         && stores[i + 1] == NextData(validate, z, Join(Generated(passes[i].good), '\n'), passes[i].serial, stores[i])
  }

  /** A pass that prints what is stored, but for the serial, keeps it. */
  lemma SameTextKept(validate: string -> bool, z: ZoneSpec, records: string, serial: string, newSerial: string)
    requires '\n' !in serial && '\n' !in newSerial
    ensures var stored := Some(ZoneData(z, records, serial)); NextData(validate, z, records, newSerial, stored) == stored
  {
    hide StripText, PrintZoneFile, ZoneFileKey;
    SerialBlind(HeaderOf(z), records, serial, newSerial);
    StrippedZoneData(z, records, serial);
    StrippedZoneData(z, records, newSerial);
  }

  /**
   * Passes over an unchanged spec and unchanged names and texts of the validated records never
   * rewrite a ConfigMap that one of them wrote, at whatever times and in whatever order List
   * answers, and whatever else changes in the records: their conditions and versions do, as each
   * pass marks them.
   */
  lemma {:induction false} NoSpuriousMoves(validate: string -> bool, z: ZoneSpec, stores: seq<Option<map<string, string>>>,
                                           passes: seq<ZonePass>, listing: seq<DNSRecord>, good: seq<DNSRecord>,
                                           serial: string, k: nat)
    requires ZonePasses(validate, z, stores, passes) && k <= |passes|
    requires stores[0] == Some(ZoneData(z, Join(Generated(good), '\n'), serial)) && '\n' !in serial
    requires GoodRecords(listing, good)
    requires forall i :: 0 <= i < |passes| ==> Entries(passes[i].listing) == Entries(listing)
    ensures stores[k] == stores[0]
  {
    hide NextData, Entries, GoodRecords, ZoneData;
    if k > 0 {
      NoSpuriousMoves(validate, z, stores, passes, listing, good, serial, k - 1);
      GoodRecordsUnique(passes[k - 1].listing, listing, passes[k - 1].good, good);
      SameTextKept(validate, z, Join(Generated(good), '\n'), serial, passes[k - 1].serial);
    }
  }

  /**
   * Whatever ConfigMap there was to begin with, or none: a pass that writes it is the last that
   * does, as long as the spec and the names and texts of the validated records stay the same.
   */
  lemma WrittenAtMostOnce(validate: string -> bool, z: ZoneSpec, stores: seq<Option<map<string, string>>>, passes: seq<ZonePass>,
                          i: nat, j: nat)
    requires ZonePasses(validate, z, stores, passes) && i <= j < |passes|
    requires forall k :: i <= k <= j ==> Entries(passes[k].listing) == Entries(passes[i].listing)
    requires stores[i + 1] != stores[i]
    ensures stores[j + 1] == stores[i + 1]
  {
    hide StripText, ConstructZoneFile, StripData, ZoneData, Entries, GoodRecords;
    var rest, later := stores[i + 1..j + 2], passes[i + 1..j + 1];
    forall k | 0 <= k < |later|
      ensures GoodRecords(later[k].listing, later[k].good) && '\n' !in later[k].serial
      ensures rest[k + 1] == NextData(validate, z, Join(Generated(later[k].good), '\n'), later[k].serial, rest[k])
      ensures Entries(later[k].listing) == Entries(passes[i].listing)
    {
      assert later[k] == passes[i + 1 + k];
    }
    NoSpuriousMoves(validate, z, rest, later, passes[i].listing, passes[i].good, passes[i].serial, j - i);
  }
}
