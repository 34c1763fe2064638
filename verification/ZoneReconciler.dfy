/** The DNSZone controller (internal/controller/dnszone_controller.go), over any behaviour of the others. */
module ZoneReconciler {
  import opened Text
  import opened Objects
  import opened ZoneFile
  import opened ZoneFileLaws
  import opened Serial
  import opened Cluster
  import opened Invariants
  import opened Environment
  import opened Safety
  import opened Api
  import opened Finalizers

  // ---- what the controller goes on knowing ----

  /** The zone is still the object that was read, and objects with the version that was read are unchanged. */
  ghost predicate Follows(n: string, s: State, t: State) {
    Fresh(s, t) && ZoneStays(s, t, n)
  }

  lemma FollowsRely(p: Params, n: string, s: State, t: State)
    requires Rely(p, ZoneController(n), s, t)
    ensures Follows(n, s, t)
  {
    hide Fresh, MapName;
  }

  lemma FollowsStep(p: Params, n: string, s: State, a: Action)
    requires Inv(p, s) && Enabled(p, s, a) && !OnZoneFinalizer(a)
    ensures Follows(n, s, Apply(p, s, a))
  {
    hide MapsOk, ZonesOk, RecordsOk, CoreOk, VersionsOk, Enabled, Apply, Fresh, OnlyRecords, OnlyZones, OnlyMaps,
      OnlyConnector, OnlyCore, OnlyWorkload;
    StepTouches(p, s, a);
    FreshAfter(s, a, Apply(p, s, a));
    ZoneStaysStep(p, s, a, n);
  }

  lemma FreshAfter(s: State, a: Action, t: State)
    requires Touches(s, a, t)
    ensures Fresh(s, t)
  {
    hide Fresh;
  }

  lemma FollowsTwice(n: string, s: State, t: State, u: State)
    requires VersionsOk(s) && Follows(n, s, t) && Follows(n, t, u)
    ensures Follows(n, s, u)
  {
    hide Fresh;
    FreshTwice(s, t, u);
  }

  // ---- the statuses it writes ----

  function Told(zone: DNSZone, reason: string, message: string, now: int): seq<Condition> {
    SetStatusCondition(zone.status.conditions, Condition(READY, false, reason, message, zone.generation, now))
  }

  /** Listing the records failed. */
  function Unlisted(zone: DNSZone, now: int): ZoneStatus {
    zone.status.(conditions := Told(zone, "UpdateError", "Preserving the previous version", now))
  }

  /** The zone file did not pass validation. */
  function Refused(zone: DNSZone, now: int): ZoneStatus {
    zone.status.(validationPassed := false, conditions := Told(zone, "UpdateError", "Zone validation failure", now))
  }

  /** The ConfigMap was written. */
  function Completed(p: Params, zone: DNSZone, serial: string, count: nat, now: int): ZoneStatus {
    zone.status.(currentZoneSerial := serial, recordCount := count, validationPassed := true, checkpoint := true,
      zoneConfigmap := MapName(p, zone.name), conditions := Told(zone, "Pending", "Zone ConfigMap has been created", now))
  }

  function Timeless(st: ZoneStatus): ZoneStatus {
    st.(conditions := seq(|st.conditions|, i requires 0 <= i < |st.conditions| => st.conditions[i].(since := 0)))
  }

  /** Equal but for the times of their conditions. */
  predicate SameButTimes(a: ZoneStatus, b: ZoneStatus) {
    && a.(conditions := b.conditions) == b && |a.conditions| == |b.conditions|
    && forall i :: 0 <= i < |a.conditions| ==> a.conditions[i].(since := b.conditions[i].since) == b.conditions[i]
  }

  lemma TimelessIff(a: ZoneStatus, b: ZoneStatus)
    ensures Timeless(a) == Timeless(b) <==> SameButTimes(a, b)
  {
    if Timeless(a) == Timeless(b) {
      forall i | 0 <= i < |a.conditions| ensures a.conditions[i].(since := b.conditions[i].since) == b.conditions[i] {
        assert Timeless(a).conditions[i] == Timeless(b).conditions[i];
      }
    }
    if SameButTimes(a, b) {
      assert Timeless(a).conditions == Timeless(b).conditions;
    }
  }

  lemma ToldNotReady(zone: DNSZone, reason: string, message: string, now: int)
    requires OwnConditions(zone.status.conditions)
    ensures OneReady(Told(zone, reason, message, now)) && !IsReady(Told(zone, reason, message, now))
    ensures Says(Told(zone, reason, message, now), false, zone.generation)
  {}

  /** The zone object as the controller read it. */
  ghost predicate ReadAs(p: Params, read: State, n: string, zone: DNSZone) {
    Inv(p, read) && n in read.zones && read.zones[n] == zone && zone.name == n && zone.finalizer
  }

  lemma ReadZone(p: Params, s: State, n: string)
    requires Inv(p, s) && n in s.zones && s.zones[n].finalizer
    ensures ReadAs(p, s, n, s.zones[n])
  {
    hide MapsOk, ZonesOk, RecordsOk, CoreOk;
  }

  lemma FailurePrepared(p: Params, read: State, s: State, n: string, zone: DNSZone, st: ZoneStatus, now: int)
    requires ReadAs(p, read, n, zone) && Follows(n, read, s) && (st == Unlisted(zone, now) || st == Refused(zone, now))
    ensures Prepared(p, ZoneController(n), s, WriteZoneStatus(ZoneController(n), n, zone.version, st))
  {
    hide Fresh, MapsOk, ZonesOk, RecordsOk, CoreOk, ZoneStays, Steady, Told, OneReady, IsReady;
    ZoneOkAt(p, read, n);
    ToldNotReady(zone, "UpdateError", "Preserving the previous version", now);
    ToldNotReady(zone, "UpdateError", "Zone validation failure", now);
    var me := ZoneController(n);
    var a := WriteZoneStatus(me, n, zone.version, st);
    forall t: State | Inv(p, t) && Rely(p, me, s, t) && Accepts(p, t, a) ensures Enabled(p, t, a) {
      FreshTwice(read, s, t);
      SameZone(read, t, n);
    }
  }

  // ---- the ConfigMap it writes ----

  /** The ConfigMap of zone n holds exactly what this pass printed. */
  predicate HoldsMap(p: Params, s: State, n: string, uid: nat, z: ZoneSpec, text: string, serial: string) {
    && MapName(p, n) in s.maps
    && s.maps[MapName(p, n)].(version := 0, finalizer := false) == ZoneMap(p, 0, n, uid, z, text, serial)
  }

  lemma MapWritten(p: Params, s: State, n: string, uid: nat, z: ZoneSpec, text: string, serial: string)
    ensures HoldsMap(p, ZoneMapWritten(p, s, n, uid, z, text, serial), n, uid, z, text, serial)
  {
    hide MapName, ZoneData;
  }

  lemma MapStill(p: Params, s: State, t: State, n: string, uid: nat, z: ZoneSpec, text: string, serial: string)
    requires Rely(p, ZoneController(n), s, t) && HoldsMap(p, s, n, uid, z, text, serial) && ZoneHeld(s, n, uid)
    ensures HoldsMap(p, t, n, uid, z, text, serial) && ZoneHeld(t, n, uid)
  {
    hide MapName, ZoneData, Fresh;
    assert OwnerAlive(s, s.maps[MapName(p, n)]);
  }

  lemma MapMarked(p: Params, s: State, n: string, uid: nat, z: ZoneSpec, text: string, serial: string)
    requires HoldsMap(p, s, n, uid, z, text, serial)
    ensures HoldsMap(p, MapFinalizerSet(s, MapName(p, n), true), n, uid, z, text, serial)
  {
    hide MapName, ZoneData;
  }

  lemma MapWritePrepared(p: Params, read: State, s: State, n: string, zone: DNSZone, text: string, serial: string)
    requires ReadAs(p, read, n, zone) && Follows(n, read, s)
    requires p.validate(ConstructZoneFile(zone.spec, text, serial)) && '\n' !in serial
    ensures Prepared(p, ZoneController(n), s, CreateZoneMap(n, zone.uid, zone.spec, text, serial))
    ensures Prepared(p, ZoneController(n), s, UpdateZoneMap(n, zone.uid, zone.spec, text, serial))
  {
    hide Fresh, MapsOk, RecordsOk, CoreOk, MapName, Admitted, ConstructZoneFile, MapStays;
    ZoneOkAt(p, read, n);
  }

  lemma CompletedPrepared(p: Params, read: State, s: State, n: string, zone: DNSZone, text: string, serial: string,
                          count: nat, now: int)
    requires ReadAs(p, read, n, zone) && Follows(n, read, s)
    requires HoldsMap(p, s, n, zone.uid, zone.spec, text, serial) && ZoneHeld(s, n, zone.uid)
    ensures var st := Completed(p, zone, serial, count, now);
      Prepared(p, ZoneController(n), s, WriteZoneStatus(ZoneController(n), n, zone.version, st))
  {
    hide Fresh, MapsOk, ZonesOk, RecordsOk, CoreOk, ZoneStays, Told, OneReady, IsReady, HoldsMap, ZoneHeld, Steady,
      MapName;
    ZoneOkAt(p, read, n);
    ToldNotReady(zone, "Pending", "Zone ConfigMap has been created", now);
    var me := ZoneController(n);
    var a := WriteZoneStatus(me, n, zone.version, Completed(p, zone, serial, count, now));
    forall t: State | Inv(p, t) && Rely(p, me, s, t) && Accepts(p, t, a) ensures Enabled(p, t, a) {
      FreshTwice(read, s, t);
      SameZone(read, t, n);
      MapStill(p, s, t, n, zone.uid, zone.spec, text, serial);
      CompletedJustified(p, t, n, zone, text, serial, count, now);
    }
  }

  lemma CompletedJustified(p: Params, t: State, n: string, zone: DNSZone, text: string, serial: string, count: nat, now: int)
    requires n in t.zones && t.zones[n] == zone && zone.name == n
    requires HoldsMap(p, t, n, zone.uid, zone.spec, text, serial) && ZoneHeld(t, n, zone.uid)
    ensures WrittenStatus(p, t, n, Completed(p, zone, serial, count, now))
  {
    hide MapName, ZoneData, Told;
  }

  // ---- the code ----

  /** dnsZoneUpdateStatus: writes only if more than transition times changed. */
  method UpdateStatus(api: ApiServer, zone: DNSZone, st: ZoneStatus) returns (ok: bool, ghost acts: seq<Action>)
    requires api.Valid()
    requires Prepared(api.p, ZoneController(zone.name), api.s, WriteZoneStatus(ZoneController(zone.name), zone.name, zone.version, st))
    modifies api
    ensures api.Valid() && old(api.trace) <= api.trace
    ensures Rely(api.p, ZoneController(zone.name), old(api.s), api.s)
    ensures var me := ZoneController(zone.name);
      && Own(me, api.trace) == Own(me, old(api.trace)) + acts
      && (acts == [] || acts == [WriteZoneStatus(me, zone.name, zone.version, st)])
    ensures ok ==> acts != [] || Timeless(st) == Timeless(zone.status)
    ensures SameButTimes(st, zone.status) ==> acts == [] && ok
    ensures ok ==> acts != [] || SameButTimes(st, zone.status)
  {
    TimelessIff(st, zone.status);
    hide Inv, Reachable, Run, Rely, Accepts, Enabled, Apply, Prepared, NamesApart, Timeless, SameButTimes;
    acts := [];
    ghost var before := api.s;
    var me := ZoneController(zone.name);
    if Timeless(st) == Timeless(zone.status) {
      RelyNothing(api.p, me, before);
      return true, acts;
    }
    ghost var mid;
    ok, mid, acts := api.Write(me, WriteZoneStatus(me, zone.name, zone.version, st));
    if acts != [] {
      RelyStep(api.p, me, mid, acts[0]);
      RelyTwice(api.p, me, before, mid, api.s);
    }
  }

  /** The good records of zone n in state s, in the order of their names. */
  ghost predicate GoodListing(s: State, n: string, good: seq<DNSRecord>) {
    && SortedByName(good)
    && forall r :: r in good <==>
         r.name in s.records && s.records[r.name] == r && r.spec.zone == n && r.status.validationPassed
  }

  lemma GoodFromListing(s: State, n: string, listing: seq<DNSRecord>, good: seq<DNSRecord>)
    requires IsRecordListing(s.records, n, listing) && GoodRecords(listing, good)
    ensures GoodListing(s, n, good)
  {}

  /** getGoodDnsRecords. */
  method FetchGoodRecords(api: ApiServer, n: string) returns (r: Option<seq<DNSRecord>>)
    requires api.Valid()
    modifies api
    ensures api.Valid() && old(api.trace) <= api.trace && Rely(api.p, ZoneController(n), old(api.s), api.s)
    ensures Own(ZoneController(n), api.trace) == Own(ZoneController(n), old(api.trace))
    ensures r.Some? ==> GoodListing(api.s, n, r.value)
  {
    hide Inv, Reachable, Run, Rely, GoodListing;
    var listing := api.ListRecords(ZoneController(n), n);
    if !listing.Found? {
      return None;
    }
    var good := GetGoodRecords(listing.value);
    GoodFromListing(api.s, n, listing.value, good);
    r := Some(good);
  }

  /** The record's status once it joined the zone, or once the zone is gone. */
  function Marked(rec: DNSRecord, n: string, ready: bool, now: int): RecordStatus {
    var condition :=
      if ready then Condition(READY, true, "Ready", "Record has joined to " + "the DNSZone: " + n, rec.generation, now)
      else Condition(READY, false, "Pending", "DNSZone has been " + "removed: " + n, rec.generation, now);
    rec.status.(conditions := SetStatusCondition(rec.status.conditions, condition))
  }

  /** The status writes of the loop over the records, for the records as they were fetched again. */
  ghost function MarksFor(n: string, seen: seq<DNSRecord>, ready: bool, now: int): seq<Action> {
    seq(|seen|, i requires 0 <= i < |seen| =>
      WriteRecordStatus(ZoneController(n), seen[i].name, seen[i].version, Marked(seen[i], n, ready, now)))
  }

  /** The records seen are the listed ones, fetched again. */
  ghost predicate SeenAgain(good: seq<DNSRecord>, seen: seq<DNSRecord>) {
    && |seen| <= |good|
    && forall i :: 0 <= i < |seen| ==> seen[i].name == good[i].name && OwnConditions(seen[i].status.conditions)
  }

  /** Each mark says that its record is ready, or not, and leaves the rest of the record's status alone. */
  predicate MarksSay(marks: seq<Action>, seen: seq<DNSRecord>, ready: bool) {
    && |marks| <= |seen|
    && forall i :: 0 <= i < |marks| ==>
         && marks[i].WriteRecordStatus? && marks[i].name == seen[i].name && marks[i].version == seen[i].version
         && Says(marks[i].recordStatus.conditions, ready, seen[i].generation)
         && marks[i].recordStatus.(conditions := seen[i].status.conditions) == seen[i].status
  }

  lemma MarkedSays(rec: DNSRecord, n: string, ready: bool, now: int)
    requires OwnConditions(rec.status.conditions)
    ensures Says(Marked(rec, n, ready, now).conditions, ready, rec.generation) && OneReady(Marked(rec, n, ready, now).conditions)
  {
    SetSays(rec.status.conditions, Condition(READY, true, "Ready", "Record has joined to " + "the DNSZone: " + n, rec.generation, now));
    SetSays(rec.status.conditions, Condition(READY, false, "Pending", "DNSZone has been " + "removed: " + n, rec.generation, now));
  }

  lemma AllMarksSay(n: string, good: seq<DNSRecord>, seen: seq<DNSRecord>, ready: bool, now: int, marks: seq<Action>)
    requires SeenAgain(good, seen) && marks <= MarksFor(n, seen, ready, now)
    ensures MarksSay(marks, seen, ready)
  {
    hide Marked, Says, OwnConditions;
    forall i | 0 <= i < |marks|
      ensures marks[i].WriteRecordStatus? && marks[i].name == seen[i].name && marks[i].version == seen[i].version
      ensures Says(marks[i].recordStatus.conditions, ready, seen[i].generation)
      ensures marks[i].recordStatus.(conditions := seen[i].status.conditions) == seen[i].status
    {
      assert marks[i] == MarksFor(n, seen, ready, now)[i];
      MarkedSays(seen[i], n, ready, now);
      MarkedRest(seen[i], n, ready, now);
    }
  }

  lemma MarkedRest(rec: DNSRecord, n: string, ready: bool, now: int)
    ensures Marked(rec, n, ready, now).(conditions := rec.status.conditions) == rec.status
  {}

  lemma SeenMore(good: seq<DNSRecord>, seen: seq<DNSRecord>, rec: DNSRecord)
    requires SeenAgain(good, seen) && |seen| < |good| && rec.name == good[|seen|].name && OwnConditions(rec.status.conditions)
    ensures SeenAgain(good, seen + [rec])
  {
    hide OwnConditions;
  }

  lemma OwnRecord(p: Params, s: State, n: string)
    requires Inv(p, s) && n in s.records
    ensures OwnConditions(s.records[n].status.conditions)
  {
    hide MapsOk, ZonesOk, CoreOk, VersionsOk;
  }

  lemma MarkPrepared(p: Params, s: State, n: string, m: string, ready: bool, now: int)
    requires Inv(p, s) && m in s.records
    ensures var rec := s.records[m];
      Prepared(p, ZoneController(n), s, WriteRecordStatus(ZoneController(n), m, rec.version, Marked(rec, n, ready, now)))
  {
    hide Fresh, MapsOk, ZonesOk, RecordsOk, CoreOk, Steady, OneReady, OwnConditions;
    var rec, me := s.records[m], ZoneController(n);
    OwnRecord(p, s, m);
    MarkedSays(rec, n, ready, now);
    var a := WriteRecordStatus(me, m, rec.version, Marked(rec, n, ready, now));
    forall t: State | Inv(p, t) && Rely(p, me, s, t) && Accepts(p, t, a) ensures Enabled(p, t, a) {
      SameRecord(s, t, m);
    }
  }

  /** A record marked ready is ready, and one marked otherwise is not. */
  lemma MarkedReady(rec: DNSRecord, n: string, ready: bool, now: int)
    requires OwnConditions(rec.status.conditions)
    ensures IsReady(Marked(rec, n, ready, now).conditions) <==> ready
  {
    hide Marked;
    MarkedSays(rec, n, ready, now);
    SaysReady(Marked(rec, n, ready, now).conditions, ready, rec.generation);
  }

  lemma MarksMore(n: string, seen: seq<DNSRecord>, rec: DNSRecord, ready: bool, now: int)
    ensures MarksFor(n, seen + [rec], ready, now) ==
      MarksFor(n, seen, ready, now) + [WriteRecordStatus(ZoneController(n), rec.name, rec.version, Marked(rec, n, ready, now))]
  {
    hide Marked;
  }

  /** The loop over the records: fetch each again, set its condition, write its status. */
  method MarkRecords(api: ApiServer, n: string, good: seq<DNSRecord>, ready: bool, now: int)
    returns (ok: bool, seen: seq<DNSRecord>, ghost acts: seq<Action>)
    requires api.Valid()
    modifies api
    ensures api.Valid() && old(api.trace) <= api.trace && Rely(api.p, ZoneController(n), old(api.s), api.s)
    ensures Own(ZoneController(n), api.trace) == Own(ZoneController(n), old(api.trace)) + acts
    ensures SeenAgain(good, seen) && acts <= MarksFor(n, seen, ready, now)
    ensures ok ==> |seen| == |good| && acts == MarksFor(n, seen, ready, now)
    ensures MarksSay(acts, seen, ready)
  {
    hide Inv, Reachable, Run, Rely, Accepts, Enabled, Apply, Prepared, NamesApart, Marked, MarksFor, SeenAgain, MarksSay,
      OwnConditions;
    seen, acts := [], [];
    var me := ZoneController(n);
    ghost var before := api.s;
    RelyNothing(api.p, me, before);
    NothingMarked(n, ready, now);
    AllMarksSay(n, good, seen, ready, now, acts);
    for i := 0 to |good|
      invariant api.Valid() && old(api.trace) <= api.trace && Rely(api.p, me, before, api.s)
      invariant Own(me, api.trace) == Own(me, old(api.trace)) + acts
      invariant |seen| == i && SeenAgain(good, seen) && acts == MarksFor(n, seen, ready, now)
    {
      ghost var top, done := api.s, acts;
      var fetched := api.GetRecord(me, good[i].name);
      RelyTwice(api.p, me, before, top, api.s);
      if !fetched.Found? {
        AllMarksSay(n, good, seen, ready, now, acts);
        return false, seen, acts;
      }
      var rec := fetched.value;
      ghost var read := api.s;
      NamedAs(api.p, read, good[i].name);
      MarkPrepared(api.p, read, n, rec.name, ready, now);
      MarksMore(n, seen, rec, ready, now);
      OwnRecord(api.p, read, good[i].name);
      SeenMore(good, seen, rec);
      var written;
      ghost var mid, one;
      var a := WriteRecordStatus(me, rec.name, rec.version, Marked(rec, n, ready, now));
      written, mid, one := api.Write(me, a);
      RelyTwice(api.p, me, before, read, mid);
      if one != [] {
        RelyStep(api.p, me, mid, a);
        RelyTwice(api.p, me, before, mid, api.s);
      }
      seen := seen + [rec];
      acts := done + one;
      if !written {
        AllMarksSay(n, good, seen, ready, now, acts);
        return false, seen, acts;
      }
    }
    AllMarksSay(n, good, seen, ready, now, acts);
    ok := true;
  }

  /** How createOrUpdateZoneCM ends: an error, validation refused, "no changes", or the ConfigMap was written. */
  datatype Ending = Faulted | Rejected | Same | Written

  /** The writes of a pass whose zone file is valid. */
  ghost predicate ZoneWrite(p: Params, zone: DNSZone, baked: Baked, serial: string, now: int, a: Action) {
    || a == CreateZoneMap(zone.name, zone.uid, zone.spec, baked.text, serial)
    || a == UpdateZoneMap(zone.name, zone.uid, zone.spec, baked.text, serial)
    || a == WriteZoneStatus(ZoneController(zone.name), zone.name, zone.version, Completed(p, zone, serial, baked.count, now))
    || (a.WriteFinalizer? && a.ref == MapRef(zone.name) && a.present)
  }

  /** The order of these writes: create, update, status, finalizer. */
  function Rank(a: Action): nat {
    if a.CreateZoneMap? then 0 else if a.UpdateZoneMap? then 1 else if a.WriteZoneStatus? then 2 else 3
  }

  /** At most one write of each kind, in their order, none before the stage `from`. */
  predicate InStages(acts: seq<Action>, from: nat) {
    && (forall a <- acts :: Rank(a) >= from)
    && forall i, j :: 0 <= i < j < |acts| ==> Rank(acts[i]) < Rank(acts[j])
  }

  lemma StagesAppend(a: seq<Action>, b: seq<Action>, from: nat, k: nat)
    requires InStages(a, from) && (forall x <- a :: Rank(x) < k) && InStages(b, k) && from <= k
    ensures InStages(a + b, from)
  {}

  /** The writes of a pass whose zone file is valid, however far it gets: status and finalizer only after the update. */
  ghost predicate ZoneWrites(p: Params, zone: DNSZone, baked: Baked, serial: string, now: int, acts: seq<Action>) {
    && (forall a <- acts :: ZoneWrite(p, zone, baked, serial, now, a))
    && InStages(acts, 0)
    && forall a <- acts :: Rank(a) >= 2 ==> UpdateZoneMap(zone.name, zone.uid, zone.spec, baked.text, serial) in acts
  }

  // ---- what the statuses say, field by field ----

  /** Nothing is said but that the zone is not ready. */
  predicate OnlyNotReady(zone: DNSZone, st: ZoneStatus) {
    st == zone.status.(conditions := st.conditions) && Says(st.conditions, false, zone.generation)
  }

  /** And that it did not pass validation; serial, count, ConfigMap name and checkpoint stay. */
  predicate NotValid(zone: DNSZone, st: ZoneStatus) {
    st == zone.status.(conditions := st.conditions, validationPassed := false) && Says(st.conditions, false, zone.generation)
  }

  /** And that it did, what was written where, and how many lines of records it has. */
  predicate WrittenAs(p: Params, zone: DNSZone, baked: Baked, serial: string, st: ZoneStatus) {
    && Says(st.conditions, false, zone.generation)
    && st.validationPassed && st.checkpoint && st.currentZoneSerial == serial && st.recordCount == baked.count
    && st.zoneConfigmap == p.prefix(zone.name) + zone.name
  }

  /** The status writes of a pass, by what became of it. */
  lemma StatusesSay(p: Params, s: State, zone: DNSZone, serial: string, now: int, r: Outcome, x: Printing)
    requires Printed(p, s, zone, serial, now, r, x) && OwnConditions(zone.status.conditions)
    ensures forall a <- x.acts :: a.WriteZoneStatus? ==>
      && a.author == ZoneController(zone.name) && a.name == zone.name && a.version == zone.version
      && if x.unlisted then OnlyNotReady(zone, a.zoneStatus)
         else if !p.validate(ConstructZoneFile(zone.spec, x.baked.text, serial)) then NotValid(zone, a.zoneStatus)
         else WrittenAs(p, zone, x.baked, serial, a.zoneStatus)
  {
    hide GoodListing, ConstructZoneFile, StripData, ZoneData, Decides, InStages, HoldsMap, MapAsRead, Told, MarksFor, SeenAgain,
      Reported, Timeless, MarksSay, Says, OwnConditions, OneReady;
    ToldNotReady(zone, "UpdateError", "Preserving the previous version", now);
    ToldNotReady(zone, "UpdateError", "Zone validation failure", now);
    ToldNotReady(zone, "Pending", "Zone ConfigMap has been created", now);
  }

  lemma NothingInStages(from: nat)
    ensures InStages([], from)
  {}

  lemma NoZoneWrites(p: Params, zone: DNSZone, baked: Baked, serial: string, now: int)
    ensures ZoneWrites(p, zone, baked, serial, now, []) && InStages([], 1)
  {}

  lemma CreateThenReplace(p: Params, zone: DNSZone, baked: Baked, serial: string, now: int, created: seq<Action>, acts: seq<Action>)
    requires created == [] || created == [CreateZoneMap(zone.name, zone.uid, zone.spec, baked.text, serial)]
    requires ZoneWrites(p, zone, baked, serial, now, acts) && InStages(acts, 1)
    ensures ZoneWrites(p, zone, baked, serial, now, created + acts)
  {
    hide Completed;
    StagesAppend(created, acts, 0, 1);
  }

  lemma UpdateThenComplete(p: Params, zone: DNSZone, baked: Baked, serial: string, now: int, updated: seq<Action>, acts: seq<Action>)
    requires updated == [UpdateZoneMap(zone.name, zone.uid, zone.spec, baked.text, serial)] || (updated == [] && acts == [])
    requires (forall a <- acts :: ZoneWrite(p, zone, baked, serial, now, a)) && InStages(acts, 2)
    ensures ZoneWrites(p, zone, baked, serial, now, updated + acts) && InStages(updated + acts, 1)
  {
    hide Completed;
    StagesAppend(updated, acts, 1, 2);
  }

  /** The ConfigMap that was read and found current is still there, as long as it belongs to the zone. */
  predicate MapAsRead(p: Params, s: State, zone: DNSZone, read: ConfigMap) {
    && (MapName(p, zone.name) in s.maps ==> s.maps[MapName(p, zone.name)] == read)
    && (read.owner == zone.uid ==> MapName(p, zone.name) in s.maps)
  }

  lemma MapReadStays(p: Params, s: State, t: State, zone: DNSZone, read: ConfigMap)
    requires Rely(p, ZoneController(zone.name), s, t) && Inv(p, s) && NamesApart(p)
    requires MapAsRead(p, s, zone, read) && ZoneHeld(s, zone.name, zone.uid)
    ensures MapAsRead(p, t, zone, read)
  {
    hide MapName, Fresh, ZonesOk, RecordsOk, CoreOk, SelfConsistent;
    if MapName(p, zone.name) in s.maps {
      ConsistentAt(p, s, MapName(p, zone.name));
      ConsistentName(p, MapName(p, zone.name), s.maps[MapName(p, zone.name)]);
    }
  }

  /** Writes the status after a failed validation: nothing else of the pass reaches the server. */
  method Refuse(api: ApiServer, ghost read: State, zone: DNSZone, now: int) returns (r: Ending, ghost acts: seq<Action>)
    requires api.Valid() && ReadAs(api.p, read, zone.name, zone) && Follows(zone.name, read, api.s)
    modifies api
    ensures api.Valid() && old(api.trace) <= api.trace && Rely(api.p, ZoneController(zone.name), old(api.s), api.s)
    ensures var me := ZoneController(zone.name);
      && Own(me, api.trace) == Own(me, old(api.trace)) + acts
      && (acts == [] || acts == [WriteZoneStatus(me, zone.name, zone.version, Refused(zone, now))])
    ensures r == Faulted || (r == Rejected && (acts != [] || Timeless(Refused(zone, now)) == Timeless(zone.status)))
  {
    hide Inv, Reachable, Run, Rely, Accepts, Enabled, Apply, Prepared, NamesApart, Refused, ReadAs, Follows, Timeless;
    acts := [];
    var n, me := zone.name, ZoneController(zone.name);
    ghost var before := api.s;
    var refreshed := api.GetZone(me, n);
    if !refreshed.Found? {
      return Faulted, acts;
    }
    ghost var fetched := api.s;
    FollowsRely(api.p, n, before, fetched);
    ReadIsValid(api.p, read, n, zone);
    FollowsTwice(n, read, before, fetched);
    FailurePrepared(api.p, read, fetched, n, zone, Refused(zone, now), now);
    var ok;
    ok, acts := UpdateStatus(api, zone, Refused(zone, now));
    RelyTwice(api.p, me, before, fetched, api.s);
    r := if ok then Rejected else Faulted;
  }

  lemma ReadIsValid(p: Params, read: State, n: string, zone: DNSZone)
    requires ReadAs(p, read, n, zone)
    ensures VersionsOk(read) && Inv(p, read) && n in read.zones && zone.name == n
  {
    hide MapsOk, ZonesOk, RecordsOk, CoreOk, VersionsOk;
  }

  /** A write of the ConfigMap, created or replaced. */
  method WriteMap(api: ApiServer, ghost read: State, zone: DNSZone, text: string, serial: string, create: bool)
    returns (ok: bool, ghost acts: seq<Action>)
    requires api.Valid() && ReadAs(api.p, read, zone.name, zone) && Follows(zone.name, read, api.s)
    requires api.p.validate(ConstructZoneFile(zone.spec, text, serial)) && '\n' !in serial
    modifies api
    ensures api.Valid() && old(api.trace) <= api.trace && Follows(zone.name, read, api.s)
    ensures var me := ZoneController(zone.name);
      && Own(me, api.trace) == Own(me, old(api.trace)) + acts
      && (acts == [] || acts == [if create then CreateZoneMap(zone.name, zone.uid, zone.spec, text, serial)
                                 else UpdateZoneMap(zone.name, zone.uid, zone.spec, text, serial)])
    ensures ok ==> acts != [] && HoldsMap(api.p, api.s, zone.name, zone.uid, zone.spec, text, serial)
    ensures ok ==> ZoneHeld(api.s, zone.name, zone.uid)
  {
    hide Inv, Reachable, Run, Rely, Accepts, Enabled, Prepared, NamesApart, ReadAs, Follows, HoldsMap, ZoneHeld,
      ZoneMapWritten, ConstructZoneFile;
    var n, me := zone.name, ZoneController(zone.name);
    ghost var before := api.s;
    MapWritePrepared(api.p, read, before, n, zone, text, serial);
    ReadIsValid(api.p, read, n, zone);
    ghost var mid;
    var a :=
      if create then CreateZoneMap(n, zone.uid, zone.spec, text, serial)
      else UpdateZoneMap(n, zone.uid, zone.spec, text, serial);
    ok, mid, acts := api.Write(me, a);
    FollowsRely(api.p, n, before, mid);
    FollowsTwice(n, read, before, mid);
    if acts != [] {
      FollowsStep(api.p, n, mid, a);
      FollowsTwice(n, read, mid, api.s);
      MapWritten(api.p, mid, n, zone.uid, zone.spec, text, serial);
      StillHeld(api.p, read, api.s, n, zone);
    }
  }

  lemma StillHeld(p: Params, read: State, s: State, n: string, zone: DNSZone)
    requires ReadAs(p, read, n, zone) && Follows(n, read, s)
    ensures ZoneHeld(s, n, zone.uid)
  {
    hide Fresh, Inv;
  }

  /** The zone is still the one that was read, and its ConfigMap is the one this pass printed. */
  ghost predicate Standing(p: Params, read: State, s: State, zone: DNSZone, text: string, serial: string) {
    && ReadAs(p, read, zone.name, zone) && Follows(zone.name, read, s)
    && HoldsMap(p, s, zone.name, zone.uid, zone.spec, text, serial) && ZoneHeld(s, zone.name, zone.uid)
  }

  lemma StandingStays(p: Params, read: State, s: State, t: State, zone: DNSZone, text: string, serial: string)
    requires Standing(p, read, s, zone, text, serial) && Rely(p, ZoneController(zone.name), s, t)
    ensures Standing(p, read, t, zone, text, serial)
  {
    hide Rely, ReadAs, Follows, HoldsMap, ZoneHeld;
    ReadIsValid(p, read, zone.name, zone);
    FollowsRely(p, zone.name, s, t);
    FollowsTwice(zone.name, read, s, t);
    MapStill(p, s, t, zone.name, zone.uid, zone.spec, text, serial);
  }

  /** The status that reports the write. */
  method TellCompleted(api: ApiServer, ghost read: State, zone: DNSZone, baked: Baked, serial: string, now: int)
    returns (ok: bool, ghost acts: seq<Action>)
    requires api.Valid() && Standing(api.p, read, api.s, zone, baked.text, serial)
    modifies api
    ensures api.Valid() && old(api.trace) <= api.trace && Standing(api.p, read, api.s, zone, baked.text, serial)
    ensures var me := ZoneController(zone.name);
      && Own(me, api.trace) == Own(me, old(api.trace)) + acts
      && (acts == [] || acts == [WriteZoneStatus(me, zone.name, zone.version, Completed(api.p, zone, serial, baked.count, now))])
    ensures ok ==> acts != [] || Timeless(Completed(api.p, zone, serial, baked.count, now)) == Timeless(zone.status)
  {
    hide Inv, Reachable, Run, Rely, Accepts, Enabled, Apply, Prepared, NamesApart, Completed, Standing, Timeless;
    acts := [];
    ghost var before := api.s;
    var refreshed := api.GetZone(ZoneController(zone.name), zone.name);
    ghost var fetched := api.s;
    StandingStays(api.p, read, before, fetched, zone, baked.text, serial);
    if !refreshed.Found? {
      return false, acts;
    }
    StandingPrepares(api.p, read, fetched, zone, baked, serial, now);
    ok, acts := UpdateStatus(api, zone, Completed(api.p, zone, serial, baked.count, now));
    StandingStays(api.p, read, fetched, api.s, zone, baked.text, serial);
  }

  lemma StandingPrepares(p: Params, read: State, s: State, zone: DNSZone, baked: Baked, serial: string, now: int)
    requires Standing(p, read, s, zone, baked.text, serial)
    ensures var n, st := zone.name, Completed(p, zone, serial, baked.count, now);
      Prepared(p, ZoneController(n), s, WriteZoneStatus(ZoneController(n), n, zone.version, st))
  {
    hide Prepared, ReadAs, Follows, HoldsMap, ZoneHeld, Completed;
    CompletedPrepared(p, read, s, zone.name, zone, baked.text, serial, baked.count, now);
  }

  /** The finalizer, which the update of the ConfigMap dropped, is put on again. */
  method HoldMap(api: ApiServer, ghost read: State, zone: DNSZone, text: string, serial: string)
    returns (ok: bool, ghost acts: seq<Action>)
    requires api.Valid() && Standing(api.p, read, api.s, zone, text, serial)
    modifies api
    ensures api.Valid() && old(api.trace) <= api.trace && Standing(api.p, read, api.s, zone, text, serial)
    ensures Own(ZoneController(zone.name), api.trace) == Own(ZoneController(zone.name), old(api.trace)) + acts
    ensures OneFinalizerWrite(acts, MapRef(zone.name), true)
    ensures ok ==> Carries(api.p, api.s, MapRef(zone.name))
  {
    hide Inv, Reachable, Run, NamesApart, Standing, Carries, MayHold, AtMostOneWrite;
    ghost var before, mid := api.s, api.s;
    StandingMayHold(api.p, read, before, zone, text, serial);
    ok, acts, mid := AddFinalizer(api, MapRef(zone.name));
    StandingMarked(api.p, read, before, mid, api.s, zone, text, serial, acts);
  }

  lemma StandingMayHold(p: Params, read: State, s: State, zone: DNSZone, text: string, serial: string)
    requires Standing(p, read, s, zone, text, serial)
    ensures MayHold(p, s, MapRef(zone.name))
  {
    hide ReadAs, Follows, HoldsMap, ZoneHeld, MayHold;
    MapMayBeHeld(p, s, zone, text, serial);
  }

  lemma StandingMarked(p: Params, read: State, s: State, mid: State, t: State, zone: DNSZone, text: string, serial: string,
                       acts: seq<Action>)
    requires Standing(p, read, s, zone, text, serial)
    requires AtMostOneWrite(p, ZoneController(zone.name), s, mid, t, acts) && OneFinalizerWrite(acts, MapRef(zone.name), true)
    ensures Standing(p, read, t, zone, text, serial)
  {
    hide Inv, Rely, Enabled, Apply, ReadAs, Follows, HoldsMap, ZoneHeld;
    StandingStays(p, read, s, mid, zone, text, serial);
    ReadIsValid(p, read, zone.name, zone);
    if acts != [] {
      FollowsStep(p, zone.name, mid, acts[0]);
      FollowsTwice(zone.name, read, mid, t);
      FinalizerStepHolds(p, mid, t, zone.name, acts);
      MapMarked(p, mid, zone.name, zone.uid, zone.spec, text, serial);
      StillHeld(p, read, t, zone.name, zone);
    }
  }

  /** The status write is among the writes, unless the status already said so. */
  ghost predicate Reported(p: Params, zone: DNSZone, baked: Baked, serial: string, now: int, acts: seq<Action>) {
    var st := Completed(p, zone, serial, baked.count, now);
    || WriteZoneStatus(ZoneController(zone.name), zone.name, zone.version, st) in acts
    || Timeless(st) == Timeless(zone.status)
  }

  lemma ReportedMore(p: Params, zone: DNSZone, baked: Baked, serial: string, now: int, before: seq<Action>, acts: seq<Action>)
    requires Reported(p, zone, baked, serial, now, acts)
    ensures Reported(p, zone, baked, serial, now, before + acts)
  {
    hide Completed, Timeless;
  }

  /** After the ConfigMap was written: the status, then the finalizer. */
  method Complete(api: ApiServer, ghost read: State, zone: DNSZone, baked: Baked, serial: string, now: int)
    returns (r: Ending, ghost acts: seq<Action>)
    requires api.Valid() && Standing(api.p, read, api.s, zone, baked.text, serial)
    modifies api
    ensures api.Valid() && old(api.trace) <= api.trace && Standing(api.p, read, api.s, zone, baked.text, serial)
    ensures Own(ZoneController(zone.name), api.trace) == Own(ZoneController(zone.name), old(api.trace)) + acts
    ensures (forall a <- acts :: ZoneWrite(api.p, zone, baked, serial, now, a)) && InStages(acts, 2)
    ensures r == Faulted || (r == Written && Carries(api.p, api.s, MapRef(zone.name)))
    ensures r == Written ==> Reported(api.p, zone, baked, serial, now, acts)
  {
    hide Inv, Reachable, Run, NamesApart, Completed, Standing, Carries, Timeless;
    var ok;
    ok, acts := TellCompleted(api, read, zone, baked, serial, now);
    if !ok {
      return Faulted, acts;
    }
    ghost var held;
    ok, held := HoldMap(api, read, zone, baked.text, serial);
    StagesAppend(acts, held, 2, 3);
    acts := acts + held;
    r := if ok then Written else Faulted;
  }

  lemma MapMayBeHeld(p: Params, s: State, zone: DNSZone, text: string, serial: string)
    requires HoldsMap(p, s, zone.name, zone.uid, zone.spec, text, serial) && ZoneHeld(s, zone.name, zone.uid)
    ensures MayHold(p, s, MapRef(zone.name))
  {
    hide MapName, ZoneData;
  }

  lemma FinalizerStepHolds(p: Params, mid: State, t: State, n: string, acts: seq<Action>)
    requires OneFinalizerWrite(acts, MapRef(n), true)
    requires if acts == [] then t == mid else t == Apply(p, mid, acts[0])
    ensures t == mid || t == MapFinalizerSet(mid, MapName(p, n), true)
  {
    hide MapFinalizerSet, MapName;
  }

  /** Replaces the ConfigMap and completes the pass. */
  method Replace(api: ApiServer, ghost read: State, zone: DNSZone, baked: Baked, serial: string, now: int)
    returns (r: Ending, ghost acts: seq<Action>)
    requires api.Valid() && ReadAs(api.p, read, zone.name, zone) && Follows(zone.name, read, api.s)
    requires api.p.validate(ConstructZoneFile(zone.spec, baked.text, serial)) && '\n' !in serial
    modifies api
    ensures api.Valid() && old(api.trace) <= api.trace && Follows(zone.name, read, api.s)
    ensures Own(ZoneController(zone.name), api.trace) == Own(ZoneController(zone.name), old(api.trace)) + acts
    ensures ZoneWrites(api.p, zone, baked, serial, now, acts) && InStages(acts, 1)
    ensures r == Faulted || r == Written
    ensures r == Written ==>
      && HoldsMap(api.p, api.s, zone.name, zone.uid, zone.spec, baked.text, serial)
      && Carries(api.p, api.s, MapRef(zone.name))
      && UpdateZoneMap(zone.name, zone.uid, zone.spec, baked.text, serial) in acts
      && Reported(api.p, zone, baked, serial, now, acts)
  {
    hide Inv, Reachable, Run, NamesApart, ReadAs, Follows, HoldsMap, ZoneHeld, Carries, ConstructZoneFile,
      Completed, Timeless, ZoneWrites, InStages, ZoneWrite;
    NothingInStages(2);
    var ok;
    ok, acts := WriteMap(api, read, zone, baked.text, serial, false);
    if !ok {
      UpdateThenComplete(api.p, zone, baked, serial, now, acts, []);
      assert acts + [] == acts;
      return Faulted, acts;
    }
    ghost var completed;
    r, completed := Complete(api, read, zone, baked, serial, now);
    UpdateThenComplete(api.p, zone, baked, serial, now, acts, completed);
    acts := acts + completed;
  }

  function DataOf(stored: Option<ConfigMap>): Option<map<string, string>> {
    if stored.Some? then Some(stored.value.data) else None
  }

  /** The pass decides as NextData says: it keeps what is stored, or stores what it printed, and only if that differs. */
  predicate Decides(p: Params, z: ZoneSpec, text: string, serial: string, stored: Option<ConfigMap>, r: Ending) {
    var next := NextData(p.validate, z, text, serial, DataOf(stored));
    && next == (if r == Written then Some(ZoneData(z, text, serial)) else DataOf(stored))
    && (r == Written <==> next != DataOf(stored))
  }

  lemma DecidesSame(p: Params, z: ZoneSpec, text: string, serial: string, stored: Option<ConfigMap>, same: bool)
    requires p.validate(ConstructZoneFile(z, text, serial))
    requires same <==> StripData(if stored.Some? then stored.value.data else map[]) == StripData(ZoneData(z, text, serial))
    ensures stored.None? ==> !same
    ensures Decides(p, z, text, serial, stored, if same then Same else Written)
  {
    hide ConstructZoneFile, StripText, ZoneFileKey;
    assert ZoneFileKey(z.domain) in StripData(ZoneData(z, text, serial));
  }

  /** What an earlier pass stored for the same spec and records is never written again, at whatever time. */
  lemma RepeatedPassIsQuiet(p: Params, z: ZoneSpec, text: string, earlier: string, serial: string, cm: ConfigMap, r: Ending)
    requires cm.data == ZoneData(z, text, earlier) && '\n' !in earlier && '\n' !in serial
    requires Decides(p, z, text, serial, Some(cm), r)
    ensures r != Written
  {
    hide StripText, ConstructZoneFile, StripData, ZoneData;
    SerialBlind(HeaderOf(z), text, earlier, serial);
    StrippedZoneData(z, text, earlier);
    StrippedZoneData(z, text, serial);
    SameText(z, text, earlier);
    SameText(z, text, serial);
  }

  lemma SameText(z: ZoneSpec, text: string, serial: string)
    ensures ConstructZoneFile(z, text, serial) == PrintZoneFile(HeaderOf(z), text, serial)
  {}

  lemma DecidesRejected(p: Params, z: ZoneSpec, text: string, serial: string, stored: Option<ConfigMap>)
    requires !p.validate(ConstructZoneFile(z, text, serial))
    ensures Decides(p, z, text, serial, stored, Rejected)
  {
    hide ConstructZoneFile, StripData, ZoneData;
  }

  /** The part of createOrUpdateZoneCM after validation; `current` is the ConfigMap that was read. */
  method Store(api: ApiServer, ghost read: State, zone: DNSZone, baked: Baked, serial: string, now: int, current: Option<ConfigMap>)
    returns (r: Ending, ghost acts: seq<Action>)
    requires api.Valid() && ReadAs(api.p, read, zone.name, zone) && Follows(zone.name, read, api.s)
    requires api.p.validate(ConstructZoneFile(zone.spec, baked.text, serial)) && '\n' !in serial
    requires current.Some? ==> MapName(api.p, zone.name) in api.s.maps && api.s.maps[MapName(api.p, zone.name)] == current.value
    modifies api
    ensures api.Valid() && old(api.trace) <= api.trace && Follows(zone.name, read, api.s)
    ensures Own(ZoneController(zone.name), api.trace) == Own(ZoneController(zone.name), old(api.trace)) + acts
    ensures r != Rejected && ZoneWrites(api.p, zone, baked, serial, now, acts)
    ensures r != Faulted ==> Decides(api.p, zone.spec, baked.text, serial, current, r)
    ensures acts != [] ==> Decides(api.p, zone.spec, baked.text, serial, current, Written)
    ensures r == Same ==>
      && acts == [] && current.Some? && MapAsRead(api.p, api.s, zone, current.value)
      && StripData(current.value.data) == StripData(ZoneData(zone.spec, baked.text, serial))
    ensures r == Written ==>
      && HoldsMap(api.p, api.s, zone.name, zone.uid, zone.spec, baked.text, serial)
      && Carries(api.p, api.s, MapRef(zone.name))
      && UpdateZoneMap(zone.name, zone.uid, zone.spec, baked.text, serial) in acts
      && Reported(api.p, zone, baked, serial, now, acts)
  {
    hide *;
    acts := [];
    NoZoneWrites(api.p, zone, baked, serial, now);
    ghost var before := api.s;
    var found := if current.Some? then current.value.data else map[];
    DecidesSame(api.p, zone.spec, baked.text, serial, current, StripData(found) == StripData(ZoneData(zone.spec, baked.text, serial)));
    var ok;
    if current.None? {
      ok, acts := WriteMap(api, read, zone, baked.text, serial, true);
      if !ok {
        CreateThenReplace(api.p, zone, baked, serial, now, acts, []);
        assert acts + [] == acts;
        return Faulted, acts;
      }
    }
    var upcoming := ZoneData(zone.spec, baked.text, serial);
    var same := CompareZonefileConfigMaps(found, upcoming);
    if same {
      MapReadNow(api.p, before, zone, current.value);
      return Same, acts;
    }
    ghost var replaced;
    r, replaced := Replace(api, read, zone, baked, serial, now);
    if r == Written {
      ReportedMore(api.p, zone, baked, serial, now, acts, replaced);
    }
    CreateThenReplace(api.p, zone, baked, serial, now, acts, replaced);
    acts := acts + replaced;
  }

  /**
   * What the ConfigMap part may write, however it ends. If the text is invalid, only the status
   * that says so reaches the server; if it is valid, nothing does unless what is stored differs.
   */
  ghost predicate PrintWrites(p: Params, zone: DNSZone, baked: Baked, serial: string, now: int, stored: Option<ConfigMap>,
                              cm: Ending, acts: seq<Action>) {
    if p.validate(ConstructZoneFile(zone.spec, baked.text, serial)) then
      && cm != Rejected && ZoneWrites(p, zone, baked, serial, now, acts)
      && (acts != [] ==> Decides(p, zone.spec, baked.text, serial, stored, Written))
    else
      && (cm == Rejected || cm == Faulted)
      && (acts == [] || acts == [WriteZoneStatus(ZoneController(zone.name), zone.name, zone.version, Refused(zone, now))])
  }

  lemma PrintWritesAre(p: Params, zone: DNSZone, baked: Baked, serial: string, now: int, stored: Option<ConfigMap>, cm: Ending,
                       acts: seq<Action>)
    requires cm != Rejected || !p.validate(ConstructZoneFile(zone.spec, baked.text, serial))
    requires p.validate(ConstructZoneFile(zone.spec, baked.text, serial)) ==>
      && ZoneWrites(p, zone, baked, serial, now, acts)
      && (acts != [] ==> Decides(p, zone.spec, baked.text, serial, stored, Written))
    requires !p.validate(ConstructZoneFile(zone.spec, baked.text, serial)) ==>
      && (cm == Rejected || cm == Faulted)
      && (acts == [] || acts == [WriteZoneStatus(ZoneController(zone.name), zone.name, zone.version, Refused(zone, now))])
    ensures PrintWrites(p, zone, baked, serial, now, stored, cm, acts)
  {
    hide ZoneWrites, Decides, Refused, ConstructZoneFile;
  }

  /**
   * createOrUpdateZoneCM. `stored` is the ConfigMap that was there in the state `found`.
   * A zone file that fails validation reaches neither the ConfigMap nor the serial, the
   * checkpoint or the ConfigMap name of the status; a valid one is stored exactly as printed,
   * unless what is stored differs from it in nothing but the serial.
   */
  method CreateOrUpdateZoneCM(api: ApiServer, ghost read: State, zone: DNSZone, baked: Baked, serial: string, now: int)
    returns (r: Ending, stored: Option<ConfigMap>, ghost found: State, ghost acts: seq<Action>)
    requires api.Valid() && ReadAs(api.p, read, zone.name, zone) && Follows(zone.name, read, api.s) && '\n' !in serial
    modifies api
    ensures api.Valid() && old(api.trace) <= api.trace && Follows(zone.name, read, api.s)
    ensures Own(ZoneController(zone.name), api.trace) == Own(ZoneController(zone.name), old(api.trace)) + acts
    ensures r == Faulted || (r == Rejected <==> !api.p.validate(ConstructZoneFile(zone.spec, baked.text, serial)))
    ensures r != Faulted ==> Decides(api.p, zone.spec, baked.text, serial, stored, r)
    ensures r != Faulted || acts != [] ==>
      MapIn(api.p, found, zone.name) == stored && Passed(api.p, api.start, old(api.trace), found, api.trace)
    ensures PrintWrites(api.p, zone, baked, serial, now, stored, r, acts)
    ensures !api.p.validate(ConstructZoneFile(zone.spec, baked.text, serial)) ==>
      Rely(api.p, ZoneController(zone.name), old(api.s), api.s)
    ensures r == Rejected ==> acts != [] || Timeless(Refused(zone, now)) == Timeless(zone.status)
    ensures r == Same ==>
      && acts == [] && stored.Some? && MapAsRead(api.p, api.s, zone, stored.value)
      && StripData(stored.value.data) == StripData(ZoneData(zone.spec, baked.text, serial))
    ensures r == Written ==>
      && HoldsMap(api.p, api.s, zone.name, zone.uid, zone.spec, baked.text, serial)
      && Carries(api.p, api.s, MapRef(zone.name))
      && UpdateZoneMap(zone.name, zone.uid, zone.spec, baked.text, serial) in acts
      && Reported(api.p, zone, baked, serial, now, acts)
  {
    hide Inv, Reachable, Run, Rely, NamesApart, ReadAs, Follows, HoldsMap, Carries, ConstructZoneFile, StripData,
      ZoneData, MapName, MapAsRead, Refused, Completed, ZoneWrites, Reported, Decides, Timeless, Passed, PrintWrites;
    acts, stored, found := [], None, api.s;
    var n, me := zone.name, ZoneController(zone.name);
    ghost var before, start := api.s, api.trace;
    ReadIsValid(api.p, read, n, zone);
    var current := api.GetMap(me, MapName(api.p, n));
    ghost var fetched, since := api.s, api.trace;
    api.Facts();
    found := fetched;
    FollowsRely(api.p, n, before, fetched);
    FollowsTwice(n, read, before, fetched);
    if current.Failed? {
      NoZoneWrites(api.p, zone, baked, serial, now);
      PrintWritesAre(api.p, zone, baked, serial, now, stored, Faulted, acts);
      return Faulted, stored, found, acts;
    }
    stored := if current.Found? then Some(current.value) else None;
    var text := ConstructZoneFile(zone.spec, baked.text, serial);
    if !api.p.validate(text) {
      DecidesRejected(api.p, zone.spec, baked.text, serial, stored);
      r, acts := Refuse(api, read, zone, now);
      RelyTwice(api.p, me, before, fetched, api.s);
      FollowsRely(api.p, n, fetched, api.s);
      FollowsTwice(n, read, fetched, api.s);
      PassedAt(api.p, api.start, start, since, api.trace);
      PrintWritesAre(api.p, zone, baked, serial, now, stored, r, acts);
      return;
    }
    r, acts := Store(api, read, zone, baked, serial, now, stored);
    PassedAt(api.p, api.start, start, since, api.trace);
    PrintWritesAre(api.p, zone, baked, serial, now, stored, r, acts);
  }

  function MapIn(p: Params, s: State, n: string): Option<ConfigMap> {
    if MapName(p, n) in s.maps then Some(s.maps[MapName(p, n)]) else None
  }

  lemma MapReadNow(p: Params, s: State, zone: DNSZone, cm: ConfigMap)
    requires MapName(p, zone.name) in s.maps && s.maps[MapName(p, zone.name)] == cm
    ensures MapAsRead(p, s, zone, cm)
  {
    hide MapName;
  }

  /**
   * How reconcileCreateOrUpdate went: the end of the ConfigMap part and what it had found when,
   * the records as listed (unless listing failed), the text made of them, the records as fetched
   * again, and the writes.
   */
  datatype Printing = Printing(
    unlisted: bool,
    cm: Ending,
    stored: Option<ConfigMap>,
    found: State,
    good: seq<DNSRecord>,
    baked: Baked,
    seen: seq<DNSRecord>,
    listed: State,
    acts: seq<Action>,
    marks: seq<Action>)

  /** The pass got as far as reading the ConfigMap. */
  predicate GotMap(x: Printing) {
    x.cm != Faulted || (!x.unlisted && x.acts != [])
  }

  /**
   * The records section is the join of the validated records that were listed; the ConfigMap
   * part did what `cm` says; and all these records are marked, also if validation refused.
   */
  ghost predicate Printed(p: Params, s: State, zone: DNSZone, serial: string, now: int, r: Outcome, x: Printing) {
    && (x.unlisted ==>
          && x.cm == Faulted
          && (x.acts == [] || x.acts == [WriteZoneStatus(ZoneController(zone.name), zone.name, zone.version, Unlisted(zone, now))]))
    && (!x.unlisted ==>
          && GoodListing(x.listed, zone.name, x.good) && x.baked.text == Join(Generated(x.good), '\n')
          && x.baked.count == (if x.good == [] then 0 else |Split(x.baked.text, '\n')|)
          && PrintWrites(p, zone, x.baked, serial, now, x.stored, x.cm, x.acts))
    && (x.cm == Faulted ==> r == Error && x.marks == [])
    && (x.cm != Faulted ==> Decides(p, zone.spec, x.baked.text, serial, x.stored, x.cm))
    && (GotMap(x) ==> MapIn(p, x.found, zone.name) == x.stored)
    && (x.cm == Rejected ==> x.acts != [] || Timeless(Refused(zone, now)) == Timeless(zone.status))
    && (x.cm == Same ==>
          && x.acts == [] && x.stored.Some? && MapAsRead(p, s, zone, x.stored.value)
          && StripData(x.stored.value.data) == StripData(ZoneData(zone.spec, x.baked.text, serial)))
    && (x.cm == Written ==>
          && HoldsMap(p, s, zone.name, zone.uid, zone.spec, x.baked.text, serial)
          && UpdateZoneMap(zone.name, zone.uid, zone.spec, x.baked.text, serial) in x.acts
          && Reported(p, zone, x.baked, serial, now, x.acts))
    && SeenAgain(x.good, x.seen) && x.marks <= MarksFor(zone.name, x.seen, true, now) && MarksSay(x.marks, x.seen, true)
    && r != Requeue
    && (r == Done ==> x.cm != Faulted && |x.seen| == |x.good| && x.marks == MarksFor(zone.name, x.seen, true, now))
  }

  /** Both states belong to the run, between the beginning and the end of the pass. */
  ghost predicate PrintedWithin(p: Params, start: State, before: seq<Action>, x: Printing, after: seq<Action>) {
    (GotMap(x) ==> Passed(p, start, before, x.found, after)) && (!x.unlisted ==> Passed(p, start, before, x.listed, after))
  }

  lemma PrintedLonger(p: Params, start: State, before: seq<Action>, b: seq<Action>, x: Printing, c: seq<Action>, after: seq<Action>)
    requires PrintedWithin(p, start, b, x, c) && before <= b && c <= after
    ensures PrintedWithin(p, start, before, x, after)
  {
    hide Passed;
    if GotMap(x) {
      PassedWithin(p, start, before, b, x.found, c, after);
    }
    if !x.unlisted {
      PassedWithin(p, start, before, b, x.listed, c, after);
    }
  }

  /** reconcileCreateOrUpdate. */
  method ReconcileCreateOrUpdate(api: ApiServer, zone: DNSZone, serial: string, now: int) returns (r: Outcome, ghost x: Printing)
    requires api.Valid() && ReadAs(api.p, api.s, zone.name, zone) && '\n' !in serial
    modifies api
    ensures api.Valid() && old(api.trace) <= api.trace && Follows(zone.name, old(api.s), api.s)
    ensures Own(ZoneController(zone.name), api.trace) == Own(ZoneController(zone.name), old(api.trace)) + x.acts + x.marks
    ensures Printed(api.p, api.s, zone, serial, now, r, x)
    ensures PrintedWithin(api.p, api.start, old(api.trace), x, api.trace)
  {
    hide Inv, Reachable, Run, Rely, NamesApart, ReadAs, Follows, HoldsMap, Carries, ConstructZoneFile, StripData, ZoneData,
      MapName, MapAsRead, Refused, Completed, ZoneWrites, GoodListing, Prepared, Unlisted, Reported, MarksFor, ZoneHeld,
      Decides, Timeless, SeenAgain, Passed, MapIn, PrintWrites, MarksSay;
    var n := zone.name;
    ghost var read, start := api.s, api.trace;
    ReadIsValid(api.p, read, n, zone);
    var fetched := FetchGoodRecords(api, n);
    ghost var listed, since := api.s, api.trace;
    api.Facts();
    FollowsRely(api.p, n, read, listed);
    var ok;
    ghost var acts;
    if fetched.None? {
      FailurePrepared(api.p, read, listed, n, zone, Unlisted(zone, now), now);
      ok, acts := UpdateStatus(api, zone, Unlisted(zone, now));
      FollowsRely(api.p, n, listed, api.s);
      FollowsTwice(n, read, listed, api.s);
      x := Printing(true, Faulted, None, listed, [], Baked(0, ""), [], listed, acts, []);
      NothingMarked(n, true, now);
      return Error, x;
    }
    var good := fetched.value;
    var baked := Baked(0, "");
    if |good| > 0 {
      baked := BakeRecords(good);
    }
    var cm, stored;
    ghost var found;
    cm, stored, found, acts := CreateOrUpdateZoneCM(api, read, zone, baked, serial, now);
    ghost var built, half := api.s, api.trace;
    if cm == Faulted {
      if acts != [] {
        PassedWithin(api.p, api.start, start, since, found, half, half);
      }
      PassedAt(api.p, api.start, start, since, api.trace);
      x := Printing(false, cm, stored, found, good, baked, [], listed, acts, []);
      NothingMarked(n, true, now);
      return Error, x;
    }
    var seen;
    ghost var marks;
    ok, seen, marks := MarkRecords(api, n, good, true, now);
    StillHeld(api.p, read, built, n, zone);
    FollowsRely(api.p, n, built, api.s);
    FollowsTwice(n, read, built, api.s);
    if cm == Same {
      MapReadStays(api.p, built, api.s, zone, stored.value);
    }
    if cm == Written {
      MapStill(api.p, built, api.s, n, zone.uid, zone.spec, baked.text, serial);
    }
    PassedAt(api.p, api.start, start, since, api.trace);
    PassedWithin(api.p, api.start, start, since, found, half, api.trace);
    r := if ok then Done else Error;
    x := Printing(false, cm, stored, found, good, baked, seen, listed, acts, marks);
  }

  // ---- deletion ----

  /** The zone is being deleted, and its ConfigMap is no longer held. */
  predicate Released(p: Params, s: State, n: string) {
    n in s.zones && s.zones[n].finalizer && s.zones[n].deleting && !MapHeldFor(p, s, n, s.zones[n].uid)
  }

  lemma ReleasedStays(p: Params, s: State, t: State, n: string)
    requires Rely(p, ZoneController(n), s, t) && Released(p, s, n)
    ensures Released(p, t, n)
  {
    hide MapName, Fresh, OwnerAlive;
  }

  lemma DeletingStays(p: Params, s: State, t: State, n: string)
    requires Rely(p, ZoneController(n), s, t) && n in s.zones && s.zones[n].finalizer && s.zones[n].deleting
    ensures n in t.zones && t.zones[n].finalizer && t.zones[n].deleting
  {
    hide MapName, Fresh, OwnerAlive;
  }

  lemma MapLetGo(p: Params, n: string, s: State, mid: State, t: State, acts: seq<Action>)
    requires Inv(p, s) && n in s.zones && s.zones[n].finalizer && s.zones[n].deleting
    requires AtMostOneWrite(p, ZoneController(n), s, mid, t, acts) && OneFinalizerWrite(acts, MapRef(n), false)
    requires !Carries(p, t, MapRef(n))
    ensures Released(p, t, n)
  {
    hide Fresh, Inv, Enabled, Apply, MapName, MapStays;
    if acts != [] {
      FollowsStep(p, n, mid, acts[0]);
    }
  }

  /** The status write after a failed listing, while the zone is being deleted. */
  method ReportUnlisted(api: ApiServer, ghost read: State, zone: DNSZone, now: int) returns (ghost acts: seq<Action>)
    requires api.Valid() && ReadAs(api.p, read, zone.name, zone) && Follows(zone.name, read, api.s)
    modifies api
    ensures api.Valid() && old(api.trace) <= api.trace
    ensures var me := ZoneController(zone.name);
      && Own(me, api.trace) == Own(me, old(api.trace)) + acts
      && (acts == [] || acts == [WriteZoneStatus(me, zone.name, zone.version, Unlisted(zone, now))])
  {
    hide Inv, Reachable, Run, Rely, NamesApart, ReadAs, Follows, Prepared, Unlisted;
    FailurePrepared(api.p, read, api.s, zone.name, zone, Unlisted(zone, now), now);
    var ok;
    ok, acts := UpdateStatus(api, zone, Unlisted(zone, now));
  }

  /** The first half of reconcileDelete: the finalizer of the ConfigMap. */
  method ReleaseMap(api: ApiServer, zone: DNSZone) returns (ok: bool, ghost acts: seq<Action>)
    requires api.Valid() && ReadAs(api.p, api.s, zone.name, zone) && zone.deleting
    modifies api
    ensures api.Valid() && old(api.trace) <= api.trace && Follows(zone.name, old(api.s), api.s)
    ensures Own(ZoneController(zone.name), api.trace) == Own(ZoneController(zone.name), old(api.trace)) + acts
    ensures OneFinalizerWrite(acts, MapRef(zone.name), false)
    ensures ok ==> Released(api.p, api.s, zone.name)
  {
    hide Inv, Reachable, Run, Rely, NamesApart, Follows, Released, AtMostOneWrite, Carries, Enabled, Apply;
    var n := zone.name;
    acts := [];
    ghost var read := api.s;
    ReadIsValid(api.p, read, n, zone);
    var current := api.GetMap(ZoneController(n), MapName(api.p, n));
    ghost var fetched := api.s;
    FollowsRely(api.p, n, read, fetched);
    DeletingStays(api.p, read, fetched, n);
    if current.Failed? {
      return false, acts;
    }
    if current.NotFound? {
      NoMapToRelease(api.p, fetched, n);
      return true, acts;
    }
    ghost var mid;
    ok, acts, mid := RemoveFinalizer(api, MapRef(n));
    MapStepFollows(api.p, n, fetched, mid, api.s, acts);
    FollowsTwice(n, read, fetched, api.s);
    if ok {
      MapLetGo(api.p, n, fetched, mid, api.s, acts);
    }
  }

  lemma NoMapToRelease(p: Params, s: State, n: string)
    requires n in s.zones && s.zones[n].finalizer && s.zones[n].deleting && MapName(p, n) !in s.maps
    ensures Released(p, s, n)
  {
    hide MapName;
  }

  lemma MapStepFollows(p: Params, n: string, s: State, mid: State, t: State, acts: seq<Action>)
    requires Inv(p, s) && AtMostOneWrite(p, ZoneController(n), s, mid, t, acts) && OneFinalizerWrite(acts, MapRef(n), false)
    ensures Follows(n, s, t)
  {
    hide MapsOk, ZonesOk, RecordsOk, CoreOk, VersionsOk, Rely, Follows, Enabled, Apply;
    FollowsRely(p, n, s, mid);
    if acts != [] {
      FollowsStep(p, n, mid, acts[0]);
      FollowsTwice(n, s, mid, t);
    }
  }

  /** A removal: the records as listed and as fetched again, and the writes of its three stages. */
  datatype Removal = Removal(
    good: seq<DNSRecord>,
    seen: seq<DNSRecord>,
    listed: State,
    letGo: seq<Action>,
    marks: seq<Action>,
    last: seq<Action>)

  /**
   * The ConfigMap is let go first, then the records are told, and the zone goes last. It is gone
   * for good only when all of this has happened.
   */
  ghost predicate Removed(p: Params, s: State, zone: DNSZone, now: int, r: Outcome, x: Removal) {
    && OneFinalizerWrite(x.letGo, MapRef(zone.name), false)
    && SeenAgain(x.good, x.seen) && x.marks <= MarksFor(zone.name, x.seen, false, now) && MarksSay(x.marks, x.seen, false)
    && (x.marks == x.last == [] || Released(p, x.listed, zone.name))
    && (OneFinalizerWrite(x.last, ZoneRef(zone.name), false) ||
        (x.marks == [] && x.last == [WriteZoneStatus(ZoneController(zone.name), zone.name, zone.version, Unlisted(zone, now))]))
    && r != Requeue
    && (r == Done ==>
          && zone.name !in s.zones && |x.last| == 1 && GoodListing(x.listed, zone.name, x.good)
          && |x.seen| == |x.good| && x.marks == MarksFor(zone.name, x.seen, false, now))
  }

  /** reconcileDelete. */
  method ReconcileDelete(api: ApiServer, zone: DNSZone, now: int) returns (r: Outcome, ghost x: Removal)
    requires api.Valid() && ReadAs(api.p, api.s, zone.name, zone) && zone.deleting
    modifies api
    ensures api.Valid() && old(api.trace) <= api.trace && Follows(zone.name, old(api.s), x.listed)
    ensures var me := ZoneController(zone.name);
      Own(me, api.trace) == Own(me, old(api.trace)) + x.letGo + x.marks + x.last
    ensures Removed(api.p, api.s, zone, now, r, x)
    ensures r == Done ==> Passed(api.p, api.start, old(api.trace), x.listed, api.trace)
  {
    hide Inv, Reachable, Run, Rely, NamesApart, ReadAs, Follows, GoodListing, Unlisted, MarksFor, Released, OneFinalizerWrite,
      SeenAgain, Exists, MayRelease, Own, AtMostOneWrite, Passed, MarksSay;
    var n := zone.name;
    ghost var read, start := api.s, api.trace;
    ReadIsValid(api.p, read, n, zone);
    NothingMarked(n, false, now);
    NothingWritten(ZoneRef(n));
    FollowsItself(n, read);
    var ok;
    ghost var letGo, marks, last;
    ok, letGo := ReleaseMap(api, zone);
    if !ok {
      return Error, Removal([], [], read, letGo, [], []);
    }
    ghost var released, mid := api.s, api.s;
    api.Facts();
    var fetched := FetchGoodRecords(api, n);
    ghost var listed, since := api.s, api.trace;
    api.Facts();
    ReleasedStays(api.p, released, listed, n);
    FollowsRely(api.p, n, released, listed);
    FollowsTwice(n, read, released, listed);
    if fetched.None? {
      last := ReportUnlisted(api, read, zone, now);
      return Error, Removal([], [], listed, letGo, [], last);
    }
    var seen;
    ok, seen, marks := MarkRecords(api, n, fetched.value, false, now);
    ReleasedStays(api.p, listed, api.s, n);
    x := Removal(fetched.value, seen, listed, letGo, marks, []);
    if !ok {
      return Error, x;
    }
    MayReleaseZone(api.p, api.s, n);
    ok, last, mid := RemoveFinalizer(api, ZoneRef(n));
    x := x.(last := last);
    if !ok {
      return Error, x;
    }
    ZoneNotThere(api.p, api.s, n);
    PassedAt(api.p, api.start, start, since, api.trace);
    r := Done;
  }

  lemma NothingMarked(n: string, ready: bool, now: int)
    ensures forall good :: SeenAgain(good, [])
    ensures MarksFor(n, [], ready, now) == [] && MarksSay([], [], ready)
  {}

  lemma FollowsItself(n: string, s: State)
    ensures Follows(n, s, s)
  {}

  lemma NothingWritten(ref: Ref)
    ensures OneFinalizerWrite([], ref, false)
  {}

  lemma ZoneNotThere(p: Params, s: State, n: string)
    requires !Exists(p, s, ZoneRef(n))
    ensures n !in s.zones
  {}

  lemma MayReleaseZone(p: Params, s: State, n: string)
    requires Released(p, s, n)
    ensures MayRelease(p, s, ZoneRef(n)) && Keeper(ZoneRef(n)) == ZoneController(n)
  {}

  lemma ZoneMayBeHeld(p: Params, s: State, n: string)
    ensures MayHold(p, s, ZoneRef(n)) && Keeper(ZoneRef(n)) == ZoneController(n)
  {}

  /** Reconcile: `read` is the zone as fetched; it gets the finalizer, or is let go, or is printed. */
  method Reconcile(api: ApiServer, n: string, clock: Instant, now: int)
    returns (r: Outcome, read: Option<DNSZone>, ghost acts: seq<Action>,
             ghost printing: Option<Printing>, ghost removal: Option<Removal>)
    requires api.Valid() && ValidInstant(clock)
    modifies api
    ensures api.Valid() && old(api.trace) <= api.trace
    ensures Own(ZoneController(n), api.trace) == Own(ZoneController(n), old(api.trace)) + acts
    ensures read.None? ==> r != Requeue && acts == []
    ensures read.Some? && !read.value.finalizer ==>
      && r != Done && OneFinalizerWrite(acts, ZoneRef(n), true) && (r == Requeue ==> Carries(api.p, api.s, ZoneRef(n)))
    ensures read.Some? && read.value.finalizer && read.value.deleting ==>
      && removal.Some? && acts == removal.value.letGo + removal.value.marks + removal.value.last
      && read.value.name == n && Removed(api.p, api.s, read.value, now, r, removal.value)
      && (r == Done ==> Passed(api.p, api.start, old(api.trace), removal.value.listed, api.trace))
    ensures read.Some? && read.value.finalizer && !read.value.deleting ==>
      && printing.Some? && acts == printing.value.acts + printing.value.marks
      && read.value.name == n && Printed(api.p, api.s, read.value, GenerateSerial(clock), now, r, printing.value)
      && PrintedWithin(api.p, api.start, old(api.trace), printing.value, api.trace)
  {
    hide *;
    read, acts, printing, removal := None, [], None, None;
    ghost var start := api.trace;
    var fetched := api.GetZone(ZoneController(n), n);
    if fetched.NotFound? {
      return Done, read, acts, printing, removal;
    }
    if fetched.Failed? {
      return Error, read, acts, printing, removal;
    }
    var zone := fetched.value;
    read := Some(zone);
    if !zone.finalizer {
      var ok;
      ghost var mid;
      ZoneMayBeHeld(api.p, api.s, n);
      ok, acts, mid := AddFinalizer(api, ZoneRef(n));
      return if ok then Requeue else Error, read, acts, printing, removal;
    }
    api.Facts();
    ReadZone(api.p, api.s, n);
    ReadIsValid(api.p, api.s, n, zone);
    ghost var half := api.trace;
    if zone.deleting {
      ghost var x;
      r, x := ReconcileDelete(api, zone, now);
      if r == Done {
        PassedWithin(api.p, api.start, start, half, x.listed, api.trace, api.trace);
      }
      removal, acts := Some(x), x.letGo + x.marks + x.last;
    } else {
      ghost var x;
      var serial := GenerateSerial(clock);
      SerialOneLine(clock);
      r, x := ReconcileCreateOrUpdate(api, zone, serial, now);
      PrintedLonger(api.p, api.start, start, half, x, api.trace, api.trace);
      printing, acts := Some(x), x.acts + x.marks;
    }
  }

  lemma SerialOneLine(clock: Instant)
    requires ValidInstant(clock)
    ensures '\n' !in GenerateSerial(clock)
  {
    hide GenerateSerial;
    SerialValue(clock);
    assert !IsDigit('\n');
  }
}
