/** What passes of the zone controller amount to over a run: quiet repetition, the checkpoint, and two ways to go wrong. */
module ZoneOutcomes {
  import opened Text
  import opened Objects
  import opened ZoneFile
  import opened ZoneFileLaws
  import opened Cluster
  import opened Invariants
  import opened Environment
  import opened Safety
  import opened Api
  import opened ZoneReconciler
  import R = RecordReconciler

  // ---- a pass over what an earlier pass stored ----

  /** A write of the zone's ConfigMap itself. */
  predicate WritesMap(a: Action) {
    a.CreateZoneMap? || a.UpdateZoneMap?
  }

  lemma SameGoodText(p: Params, s: State, t: State, n: string, good: seq<DNSRecord>, other: seq<DNSRecord>)
    requires GoodListing(s, n, good) && GoodListing(t, n, other) && Entries(good) == Entries(other)
    ensures Generated(good) == Generated(other)
  {
    SameEntriesSameText(good, other);
  }

  /** Marking a record, or a new version of it, does not change what the zone file takes from it. */
  lemma MarksKeepEntries(good: seq<DNSRecord>, after: seq<DNSRecord>)
    requires |after| == |good|
    requires forall i :: 0 <= i < |good| ==>
      after[i] == good[i].(version := after[i].version, status := good[i].status.(conditions := after[i].status.conditions))
    ensures Entries(after) == Entries(good)
  {
    forall e ensures e in Entries(after) <==> e in Entries(good) {
      if e in Entries(good) {
        var i :| 0 <= i < |good| && good[i].status.validationPassed && e == Entry(good[i].name, good[i].status.generatedRecord);
        assert after[i] in after;
      }
      if e in Entries(after) {
        var i :| 0 <= i < |after| && after[i].status.validationPassed && e == Entry(after[i].name, after[i].status.generatedRecord);
        assert good[i] in good;
      }
    }
  }

  /**
   * No spurious writes, for the code: let a pass have stored a zone file, or found it current. A
   * later pass that finds this ConfigMap, and the same spec, names and texts of validated records,
   * does not write the ConfigMap, however it ends and whatever both passes marked in between; if
   * the text is still valid it writes nothing but its marks.
   */
  lemma SecondPassIsQuiet(p: Params, s: State, zone: DNSZone, serial: string, now: int, r: Outcome, x: Printing,
                          t: State, later: DNSZone, again: string, moment: int, q: Outcome, y: Printing)
    requires Printed(p, s, zone, serial, now, r, x) && (x.cm == Written || x.cm == Same) && '\n' !in serial && '\n' !in again
    requires Printed(p, t, later, again, moment, q, y) && later.name == zone.name && later.spec == zone.spec
    requires !y.unlisted ==> Entries(y.good) == Entries(x.good)
    requires MapIn(p, s, zone.name).Some?
    requires GotMap(y) ==> DataOf(MapIn(p, y.found, zone.name)) == DataOf(MapIn(p, s, zone.name))
    ensures y.cm != Written && forall a <- y.acts :: !WritesMap(a)
    ensures !y.unlisted && p.validate(ConstructZoneFile(later.spec, y.baked.text, again)) ==> y.acts == []
  {
    hide GoodListing, ConstructZoneFile, StripText, Decides, ZoneWrites, MarksFor, Refused, Unlisted, Entries,
      Reported;
    StoredMap(p, s, zone, serial, now, r, x);
    if !y.unlisted {
      SameGoodText(p, x.listed, y.listed, zone.name, x.good, y.good);
      if GotMap(y) {
        NotDecided(p, zone.spec, x.baked.text, serial, again, MapIn(p, s, zone.name).value, y.stored);
      }
    }
  }

  lemma StoredMap(p: Params, s: State, zone: DNSZone, serial: string, now: int, r: Outcome, x: Printing)
    requires Printed(p, s, zone, serial, now, r, x) && (x.cm == Written || x.cm == Same) && MapIn(p, s, zone.name).Some?
    ensures StripData(MapIn(p, s, zone.name).value.data) == StripData(ZoneData(zone.spec, x.baked.text, serial))
  {
    hide GoodListing, ConstructZoneFile, StripData, ZoneData, Decides, PrintWrites, MarksFor, Reported, MapName;
  }

  lemma SameStripped(z: ZoneSpec, text: string, serial: string, again: string)
    requires '\n' !in serial && '\n' !in again
    ensures StripData(ZoneData(z, text, serial)) == StripData(ZoneData(z, text, again))
  {
    hide StripText, ConstructZoneFile, StripData, ZoneData;
    SerialBlind(HeaderOf(z), text, serial, again);
    StrippedZoneData(z, text, serial);
    StrippedZoneData(z, text, again);
    SameText(z, text, serial);
    SameText(z, text, again);
  }

  lemma NotDecided(p: Params, z: ZoneSpec, text: string, serial: string, again: string, cm: ConfigMap, stored: Option<ConfigMap>)
    requires '\n' !in serial && '\n' !in again
    requires StripData(cm.data) == StripData(ZoneData(z, text, serial)) && DataOf(stored) == Some(cm.data)
    ensures !Decides(p, z, text, again, stored, Written)
  {
    hide ConstructZoneFile, StripData, ZoneData;
    SameStripped(z, text, serial, again);
  }

  // ---- what one controller does to the checkpoint of its zone ----

  /** A status write with which the controller of zone n checkpoints it. */
  predicate Checkpoints(a: Action, n: string) {
    a.WriteZoneStatus? && a.author == ZoneController(n) && a.zoneStatus.checkpoint
  }

  /** The zone is the object with this uid, held, and checkpointed or not. */
  predicate HeldAs(s: State, n: string, uid: nat, checkpoint: bool) {
    ZoneHeld(s, n, uid) && s.zones[n].status.checkpoint == checkpoint
  }

  lemma ZonePutAs(s: State, m: string, z: DNSZone, n: string, uid: nat, c: bool)
    requires VersionsOk(s) && HeldAs(s, n, uid, c)
    ensures m != n ==> HeldAs(ZoneCreated(s, m, z.spec), n, uid, c) && HeldAs(ZoneGone(s, m), n, uid, c)
    ensures m in s.zones && z.name == m && m != n ==> HeldAs(PutZone(s, z), n, uid, c)
    ensures z.name == n && z.uid == uid && z.finalizer ==> HeldAs(PutZone(s, z), n, uid, z.status.checkpoint)
  {}

  lemma StatusAs(p: Params, s: State, n: string, author: Actor, m: string, version: nat, st: ZoneStatus)
    requires Enabled(p, s, WriteZoneStatus(author, m, version, st))
    ensures author == ZoneController(m) || st.checkpoint == s.zones[m].status.checkpoint
    ensures s.zones[m].status.checkpoint ==> st.checkpoint
  {
    hide OneReady, IsReady, MapName;
  }

  lemma StatusHeldAs(p: Params, s: State, author: Actor, m: string, version: nat, st: ZoneStatus, n: string, uid: nat, c: bool)
    requires VersionsOk(s) && Enabled(p, s, WriteZoneStatus(author, m, version, st)) && HeldAs(s, n, uid, c)
    ensures HeldAs(ZoneStatusSet(s, m, st), n, uid, c || Checkpoints(WriteZoneStatus(author, m, version, st), n))
  {
    hide Enabled, PutZone, VersionsOk, HeldAs;
    HeldIn(s, n, uid, c);
    StatusAs(p, s, n, author, m, version, st);
    WrittenAuthor(p, s, author, m, version, st);
    NamesOk(s, m);
    ZonePutAs(s, m, s.zones[m].(status := st), n, uid, c);
  }

  lemma FinalizerHeldAs(s: State, m: string, present: bool, n: string, uid: nat, c: bool)
    requires VersionsOk(s) && HeldAs(s, n, uid, c) && m != n
    ensures HeldAs(ZoneFinalizerSet(s, m, present), n, uid, c)
  {
    hide PutZone, ZoneGone, ZoneCreated, VersionsOk, HeldAs;
    if m in s.zones {
      NamesOk(s, m);
      ZonePutAs(s, m, s.zones[m].(finalizer := present), n, uid, c);
    }
  }

  lemma EditHeldAs(s: State, m: string, z: ZoneSpec, n: string, uid: nat, c: bool)
    requires VersionsOk(s) && HeldAs(s, n, uid, c)
    ensures HeldAs(ZoneEdited(s, m, z), n, uid, c) && HeldAs(ZoneDeleted(s, m), n, uid, c)
  {
    hide PutZone, ZoneGone, ZoneCreated, VersionsOk, HeldAs;
    HeldIn(s, n, uid, c);
    if m in s.zones {
      NamesOk(s, m);
      ZonePutAs(s, m, s.zones[m].(spec := z, generation := s.zones[m].generation + 1), n, uid, c);
      ZonePutAs(s, m, s.zones[m].(deleting := true), n, uid, c);
    }
  }

  lemma StepHeldAs(p: Params, s: State, a: Action, n: string, uid: nat, c: bool)
    requires VersionsOk(s) && Enabled(p, s, a) && HeldAs(s, n, uid, c) && !(a.WriteFinalizer? && a.ref == ZoneRef(n))
    ensures HeldAs(Apply(p, s, a), n, uid, c || Checkpoints(a, n))
  {
    hide Enabled, ZoneCreated, ZoneEdited, ZoneDeleted, ZoneStatusSet, ZoneFinalizerSet, VersionsOk, HeldAs;
    if OnZones(a) {
      match a {
        case CreateZone(m, z) => NewNameAs(p, s, m, z, n, uid, c);
        case EditZone(m, z) => EditHeldAs(s, m, z, n, uid, c);
        case DeleteZone(m) => EditHeldAs(s, m, NoSpec(), n, uid, c);
        case WriteZoneStatus(author, m, version, st) => StatusHeldAs(p, s, author, m, version, st, n, uid, c);
        case WriteFinalizer(ZoneRef(m), _, present) => FinalizerHeldAs(s, m, present, n, uid, c);
      }
    } else {
      hide Apply;
      SameElsewhere(p, s, a);
      SameZonesAs(s, Apply(p, s, a), n, uid, c);
    }
  }

  lemma HeldIn(s: State, n: string, uid: nat, c: bool)
    requires HeldAs(s, n, uid, c)
    ensures n in s.zones && s.zones[n].uid == uid && s.zones[n].finalizer && s.zones[n].status.checkpoint == c
  {}

  lemma SameZonesAs(s: State, t: State, n: string, uid: nat, c: bool)
    requires HeldAs(s, n, uid, c) && t.zones == s.zones
    ensures HeldAs(t, n, uid, c)
  {}

  lemma NewNameAs(p: Params, s: State, m: string, z: ZoneSpec, n: string, uid: nat, c: bool)
    requires Enabled(p, s, CreateZone(m, z)) && HeldAs(s, n, uid, c)
    ensures HeldAs(ZoneCreated(s, m, z), n, uid, c)
  {
    hide Admitted;
  }

  lemma NamesOk(s: State, m: string)
    requires VersionsOk(s) && m in s.zones
    ensures s.zones[m].name == m
  {}

  lemma WrittenAuthor(p: Params, s: State, author: Actor, m: string, version: nat, st: ZoneStatus)
    requires Enabled(p, s, WriteZoneStatus(author, m, version, st))
    ensures m in s.zones && (author.ZoneController? ==> author == ZoneController(m))
  {
    hide ZoneStatusJustified, NoticeJustified;
  }

  /** A zone that its own controller does not let go is checkpointed in the end if it was, or if that controller wrote so. */
  lemma {:induction false} HeldAfter(p: Params, start: State, before: seq<Action>, rest: seq<Action>, n: string, uid: nat, c: bool)
    requires Reachable(p, start, before + rest) && HeldAs(Run(p, start, before), n, uid, c)
    requires forall a <- Own(ZoneController(n), rest) :: !(a.WriteFinalizer? && a.ref == ZoneRef(n))
    ensures HeldAs(Run(p, start, before + rest), n, uid, c || exists a <- Own(ZoneController(n), rest) :: Checkpoints(a, n))
  {
    hide Initial, NamesApart, Enabled, Apply, HeldAs, Checkpoints, Inv;
    if rest == [] {
      assert before + rest == before;
    } else {
      var init, last := rest[..|rest| - 1], rest[|rest| - 1];
      assert (before + rest)[..|before + rest| - 1] == before + init;
      var own, all := Own(ZoneController(n), init), Own(ZoneController(n), rest);
      assert forall a <- own :: a in all;
      HeldAfter(p, start, before, init, n, uid, c);
      RunsAreSafe(p, start, before + init);
      InvVersions(p, Run(p, start, before + init));
      assert ActorOf(last) == ZoneController(n) ==> last in all;
      ByItsController(last, n);
      StepHeldAs(p, Run(p, start, before + init), last, n, uid, c || exists a <- own :: Checkpoints(a, n));
    }
  }

  lemma ByItsController(a: Action, n: string)
    ensures (a.WriteFinalizer? && a.ref == ZoneRef(n)) || Checkpoints(a, n) ==> ActorOf(a) == ZoneController(n)
  {}

  lemma InvVersions(p: Params, s: State)
    requires Inv(p, s)
    ensures VersionsOk(s)
  {}

  // ---- when a pass leaves its zone checkpointed ----

  /** A pass of the controller of this zone, in a run: the zone as it read it, and its own writes up to `rest`. */
  ghost predicate PassOf(p: Params, start: State, before: seq<Action>, rest: seq<Action>, zone: DNSZone, serial: string, now: int,
                         r: Outcome, x: Printing) {
    && Reachable(p, start, before + rest)
    && zone.name in Run(p, start, before).zones && Run(p, start, before).zones[zone.name] == zone && zone.finalizer
    && Own(ZoneController(zone.name), rest) == x.acts + x.marks
    && Printed(p, Run(p, start, before + rest), zone, serial, now, r, x)
  }

  lemma MarksAreRecords(n: string, seen: seq<DNSRecord>, now: int, marks: seq<Action>)
    requires marks <= MarksFor(n, seen, true, now)
    ensures forall a <- marks :: a.WriteRecordStatus?
  {
    forall a <- marks ensures a.WriteRecordStatus? {
      var i :| 0 <= i < |marks| && marks[i] == a;
      assert marks[i] == MarksFor(n, seen, true, now)[i];
    }
  }

  /** What a pass may write never lets the zone go, and checkpoints it only if the file is valid. */
  predicate Keeps(zone: DNSZone, valid: bool, a: Action) {
    && !(a.WriteFinalizer? && a.ref == ZoneRef(zone.name))
    && (Checkpoints(a, zone.name) ==> zone.status.checkpoint || valid)
  }

  lemma PrintWritesKeep(p: Params, zone: DNSZone, baked: Baked, serial: string, now: int, stored: Option<ConfigMap>, cm: Ending,
                        acts: seq<Action>)
    requires PrintWrites(p, zone, baked, serial, now, stored, cm, acts)
    ensures forall a <- acts :: Keeps(zone, p.validate(ConstructZoneFile(zone.spec, baked.text, serial)), a)
  {
    hide ConstructZoneFile, InStages, Decides, MapName, Told;
  }

  lemma ReportedCheckpoints(p: Params, zone: DNSZone, baked: Baked, serial: string, now: int, acts: seq<Action>)
    requires Reported(p, zone, baked, serial, now, acts)
    ensures zone.status.checkpoint || exists a <- acts :: Checkpoints(a, zone.name)
  {
    hide MapName, Told;
    var st := Completed(p, zone, serial, baked.count, now);
    if Timeless(st) != Timeless(zone.status) {
      assert Checkpoints(WriteZoneStatus(ZoneController(zone.name), zone.name, zone.version, st), zone.name);
    }
  }

  lemma OwnActs(p: Params, s: State, zone: DNSZone, serial: string, now: int, r: Outcome, x: Printing)
    requires Printed(p, s, zone, serial, now, r, x)
    ensures forall a <- x.acts :: Keeps(zone, !x.unlisted && p.validate(ConstructZoneFile(zone.spec, x.baked.text, serial)), a)
    ensures forall a <- x.marks :: a.WriteRecordStatus? && !Checkpoints(a, zone.name)
    ensures x.cm == Written ==> zone.status.checkpoint || exists a <- x.acts :: Checkpoints(a, zone.name)
  {
    hide GoodListing, ConstructZoneFile, StripData, ZoneData, Decides, PrintWrites, HoldsMap, MapAsRead, MapName, Told, MarksFor,
      SeenAgain, Reported, Refused, Timeless;
    MarksAreRecords(zone.name, x.seen, now, x.marks);
    if !x.unlisted {
      PrintWritesKeep(p, zone, x.baked, serial, now, x.stored, x.cm, x.acts);
    }
    if x.cm == Written {
      ReportedCheckpoints(p, zone, x.baked, serial, now, x.acts);
    }
  }

  /**
   * A pass leaves its zone checkpointed exactly if it was, or if the pass writes the status that
   * says so. So a pass that goes through and is not refused does if and only if the zone was, or
   * the pass took the write exit.
   */
  lemma CheckpointedIff(p: Params, start: State, before: seq<Action>, rest: seq<Action>, zone: DNSZone, serial: string, now: int,
                        r: Outcome, x: Printing)
    requires PassOf(p, start, before, rest, zone, serial, now, r, x)
    ensures var s := Run(p, start, before + rest);
      && ZoneHeld(s, zone.name, zone.uid)
      && (s.zones[zone.name].status.checkpoint <==> zone.status.checkpoint || exists a <- x.acts :: Checkpoints(a, zone.name))
      && (r == Done && x.cm != Rejected ==> (s.zones[zone.name].status.checkpoint <==> zone.status.checkpoint || x.cm == Written))
  {
    hide Reachable, Run, Printed, Checkpoints;
    var n, c := zone.name, zone.status.checkpoint;
    OwnActs(p, Run(p, start, before + rest), zone, serial, now, r, x);
    HeldAfter(p, start, before, rest, n, zone.uid, c);
    assert (exists a <- x.acts + x.marks :: Checkpoints(a, n)) <==> exists a <- x.acts :: Checkpoints(a, n) by {
      assert forall a :: a in x.acts + x.marks <==> a in x.acts || a in x.marks;
    }
    DoneEndings(p, Run(p, start, before + rest), zone, serial, now, r, x);
  }

  lemma DoneEndings(p: Params, s: State, zone: DNSZone, serial: string, now: int, r: Outcome, x: Printing)
    requires Printed(p, s, zone, serial, now, r, x)
    ensures r == Done && x.cm != Rejected ==> x.cm == Written || (x.cm == Same && x.acts == [])
  {
    hide GoodListing, ConstructZoneFile, StripData, ZoneData, Decides, PrintWrites, HoldsMap, MapAsRead, MapName,
      MarksFor, Refused;
  }

  /**
   * A lost status stays lost: a pass that finds in the ConfigMap what it would print, but for the
   * serial, does not checkpoint a zone that is not, however it ends; so no connector selects it.
   */
  lemma LostStatusStays(p: Params, start: State, before: seq<Action>, rest: seq<Action>, zone: DNSZone, serial: string, now: int,
                        r: Outcome, x: Printing)
    requires PassOf(p, start, before, rest, zone, serial, now, r, x) && !zone.status.checkpoint
    requires GotMap(x) ==>
      x.stored.Some? && StripData(x.stored.value.data) == StripData(ZoneData(zone.spec, x.baked.text, serial))
    ensures var s := Run(p, start, before + rest);
      ZoneHeld(s, zone.name, zone.uid) && !s.zones[zone.name].status.checkpoint && !Selected(s.zones[zone.name])
  {
    hide Run, Initial, Legal, NamesApart, Inv, Checkpoints, Selected, GoodListing, ConstructZoneFile, StripData, ZoneData, ZoneWrites,
      MarksFor, Refused, Unlisted, Reported, HoldsMap, MapAsRead, Timeless, MapName;
    var s := Run(p, start, before + rest);
    CheckpointedIff(p, start, before, rest, zone, serial, now, r, x);
    OwnActs(p, s, zone, serial, now, r, x);
    RunsAreSafe(p, start, before + rest);
    SelectedIffCheckpointed(p, s, zone.name);
  }

  // ---- two runs that go wrong ----

  function EmptyCluster(): State {
    State(1, map[], map[], map[], None, None, None, None, {}, false)
  }

  /** A zone as created, and held by its controller. */
  function NewZone(n: string, z: ZoneSpec): DNSZone {
    DNSZone(n, 1, 2, 1, false, true, z, ZoneStatus([], "000000001", 0, false, "", false))
  }

  function Setup(n: string, z: ZoneSpec): seq<Action> {
    [CreateZone(n, z), WriteFinalizer(ZoneRef(n), 1, true)]
  }

  function AfterSetup(n: string, z: ZoneSpec): State {
    EmptyCluster().(next := 3, zones := map[n := NewZone(n, z)])
  }

  lemma SetupSteps(p: Params, n: string, z: ZoneSpec)
    requires Admitted(z)
    ensures var s, a := EmptyCluster(), Setup(n, z);
      && Enabled(p, s, a[0]) && Enabled(p, Apply(p, s, a[0]), a[1]) && Apply(p, Apply(p, s, a[0]), a[1]) == AfterSetup(n, z)
  {
    hide Admitted;
    var s, a := EmptyCluster(), Setup(n, z);
    var mid := Apply(p, s, a[0]);
    assert mid.zones == map[n := NewZone(n, z).(version := 1, finalizer := false)];
    assert Apply(p, mid, a[1]).zones == map[n := NewZone(n, z)];
  }

  lemma SetupRuns(p: Params, n: string, z: ZoneSpec)
    requires NamesApart(p) && Admitted(z)
    ensures Reachable(p, EmptyCluster(), Setup(n, z)) && Run(p, EmptyCluster(), Setup(n, z)) == AfterSetup(n, z)
  {
    hide Admitted, NamesApart, Enabled, Apply;
    SetupSteps(p, n, z);
    var none: seq<Action> := [];
    var a := Setup(n, z);
    OneMore(p, EmptyCluster(), none, a[0]);
    OneMore(p, EmptyCluster(), none + [a[0]], a[1]);
    assert none + [a[0]] + [a[1]] == a;
  }

  lemma OneMore(p: Params, start: State, trace: seq<Action>, a: Action)
    requires Reachable(p, start, trace) && Enabled(p, Run(p, start, trace), a)
    ensures Reachable(p, start, trace + [a]) && Run(p, start, trace + [a]) == Apply(p, Run(p, start, trace), a)
  {
    hide Enabled, Apply, Run, Initial, NamesApart;
    LegalMore(p, start, trace, a);
  }

  function MapOf(p: Params, n: string, z: ZoneSpec, serial: string): ConfigMap {
    ZoneMap(p, 3, n, 1, z, "", serial)
  }

  function Stored(p: Params, n: string, z: ZoneSpec, serial: string): State {
    AfterSetup(n, z).(next := 4, maps := map[MapName(p, n) := MapOf(p, n, z, serial)])
  }

  function MapWrites(n: string, z: ZoneSpec, serial: string): seq<Action> {
    [CreateZoneMap(n, 1, z, "", serial), UpdateZoneMap(n, 1, z, "", serial)]
  }

  lemma StoreSteps(p: Params, n: string, z: ZoneSpec, serial: string)
    requires Admitted(z) && '\n' !in serial && p.validate(ConstructZoneFile(z, "", serial))
    ensures var s, t := AfterSetup(n, z), Stored(p, n, z, serial);
      && Enabled(p, s, MapWrites(n, z, serial)[0]) && Apply(p, s, MapWrites(n, z, serial)[0]) == t
      && Enabled(p, t, MapWrites(n, z, serial)[1]) && Apply(p, t, MapWrites(n, z, serial)[1]) == t
  {
    hide Admitted, ConstructZoneFile, ZoneData, MapName;
    var s := AfterSetup(n, z);
    assert ZoneMapWritten(p, s, n, 1, z, "", serial).maps == map[MapName(p, n) := MapOf(p, n, z, serial)];
  }

  lemma StoreRuns(p: Params, n: string, z: ZoneSpec, serial: string)
    requires NamesApart(p) && Admitted(z) && '\n' !in serial && p.validate(ConstructZoneFile(z, "", serial))
    ensures var trace := Setup(n, z) + MapWrites(n, z, serial);
      Reachable(p, EmptyCluster(), trace) && Run(p, EmptyCluster(), trace) == Stored(p, n, z, serial)
  {
    hide Enabled, Apply, Admitted, ConstructZoneFile, NamesApart, Reachable, Run;
    SetupRuns(p, n, z);
    StoreSteps(p, n, z, serial);
    var setup, writes := Setup(n, z), MapWrites(n, z, serial);
    OneMore(p, EmptyCluster(), setup, writes[0]);
    OneMore(p, EmptyCluster(), setup + [writes[0]], writes[1]);
    assert setup + [writes[0]] + [writes[1]] == setup + writes;
  }

  lemma OwnTwo(me: Actor, a: Action, b: Action)
    requires ActorOf(a) == me && ActorOf(b) == me
    ensures Own(me, [a, b]) == [a, b] && Own(me, []) == []
  {
    var none: seq<Action> := [];
    OwnMore(me, none, a);
    OwnMore(me, none + [a], b);
    assert none + [a] + [b] == [a, b];
  }

  /** The first pass creates and updates the ConfigMap; then the write of the status fails. */
  lemma FirstPass(p: Params, n: string, z: ZoneSpec, serial: string, now: int) returns (x: Printing)
    requires '\n' !in serial && p.validate(ConstructZoneFile(z, "", serial))
    ensures x.cm == Faulted && x.marks == [] && x.acts == MapWrites(n, z, serial)
    ensures x.found == x.listed == AfterSetup(n, z) && GotMap(x)
    ensures Printed(p, Stored(p, n, z, serial), NewZone(n, z), serial, now, Error, x)
  {
    hide ConstructZoneFile, ZoneData, MapName, Refused, Unlisted, Completed, StripData, HoldsMap, MapAsRead;
    x := Printing(false, Faulted, None, AfterSetup(n, z), [], Baked(0, ""), [], AfterSetup(n, z), MapWrites(n, z, serial), []);
    NothingMarked(n, true, now);
  }

  /** The next one, whatever the time, finds the ConfigMap as it would print it, and goes through without a write. */
  lemma NextPass(p: Params, n: string, z: ZoneSpec, serial: string, again: string, now: int) returns (x: Printing)
    requires '\n' !in serial && '\n' !in again && p.validate(ConstructZoneFile(z, "", again))
    ensures x.cm == Same && x.acts == x.marks == [] && x.found == x.listed == Stored(p, n, z, serial)
    ensures x.stored == MapIn(p, Stored(p, n, z, serial), n) && x.stored.Some?
    ensures StripData(x.stored.value.data) == StripData(ZoneData(z, x.baked.text, again))
    ensures Printed(p, Stored(p, n, z, serial), NewZone(n, z), again, now, Done, x)
  {
    hide ConstructZoneFile, StripData, ZoneData, MapName, Refused, Unlisted, Completed, HoldsMap, ZoneWrites, PrintWrites, Decides,
      Timeless;
    var t, zone := Stored(p, n, z, serial), NewZone(n, z);
    var cm := Some(MapOf(p, n, z, serial));
    x := Printing(false, Same, cm, t, [], Baked(0, ""), [], t, [], []);
    NothingMarked(n, true, now);
    SameStripped(z, "", serial, again);
    DecidesSame(p, z, "", again, cm, true);
    NoZoneWrites(p, zone, x.baked, again, now);
    PrintWritesAre(p, zone, x.baked, again, now, cm, Same, []);
  }

  /**
   * A concrete run with a lost status: the ConfigMap of the zone is there as printed, the pass
   * after it went through, and the zone is not checkpointed; by LostStatusStays it never will be
   * while the passes find what they would print.
   */
  lemma LostStatus(p: Params, n: string, z: ZoneSpec, serial: string, again: string, now: int)
    returns (start: State, before: seq<Action>, rest: seq<Action>, x: Printing, y: Printing)
    requires NamesApart(p) && Admitted(z) && '\n' !in serial && '\n' !in again
    requires p.validate(ConstructZoneFile(z, "", serial)) && p.validate(ConstructZoneFile(z, "", again))
    ensures PassOf(p, start, before, rest, NewZone(n, z), serial, now, Error, x) && PrintedWithin(p, start, before, x, before + rest)
    ensures PassOf(p, start, before + rest, [], NewZone(n, z), again, now, Done, y)
    ensures PrintedWithin(p, start, before + rest, y, before + rest)
    ensures var s := Run(p, start, before + rest);
      && MapName(p, n) in s.maps && s.maps[MapName(p, n)].data == ZoneData(z, "", serial) && s.maps[MapName(p, n)].owner == s.zones[n].uid
      && !s.zones[n].status.checkpoint && y.cm == Same && y.acts == []
  {
    hide Printed, Reachable, Run, Admitted, NamesApart, ConstructZoneFile, ZoneData, MapName, Passed, Own;
    start, before, rest := EmptyCluster(), Setup(n, z), MapWrites(n, z, serial);
    SetupRuns(p, n, z);
    StoreRuns(p, n, z, serial);
    OwnTwo(ZoneController(n), rest[0], rest[1]);
    x := FirstPass(p, n, z, serial, now);
    y := NextPass(p, n, z, serial, again, now);
    assert x.acts + x.marks == rest && y.acts + y.marks == [];
    assert before + rest + [] == before + rest;
    PassedAt(p, start, before, before, before + rest);
    PassedAt(p, start, before + rest, before + rest, before + rest);
  }

  // a record that is ready although no stored file holds it

  function NewRecord(rn: string, rec: RecordSpec): DNSRecord {
    DNSRecord(rn, 3, 1, false, false, rec, RecordStatus([], false, ""))
  }

  function JudgedRecord(p: Params, rn: string, rec: RecordSpec, now: int): DNSRecord {
    NewRecord(rn, rec).(version := 4, status := R.Judged(p, NewRecord(rn, rec), now))
  }

  function WithRecord(p: Params, n: string, z: ZoneSpec, rn: string, rec: RecordSpec, now: int): State {
    AfterSetup(n, z).(next := 5, records := map[rn := JudgedRecord(p, rn, rec, now)])
  }

  function RecordWrites(p: Params, rn: string, rec: RecordSpec, now: int): seq<Action> {
    [CreateRecord(rn, rec), WriteRecordStatus(RecordController(rn), rn, 3, R.Judged(p, NewRecord(rn, rec), now))]
  }

  function AfterRefusal(p: Params, n: string, z: ZoneSpec, rn: string, rec: RecordSpec, now: int): State {
    var record := JudgedRecord(p, rn, rec, now);
    AfterSetup(n, z).(next := 7,
      zones := map[n := NewZone(n, z).(version := 5, status := Refused(NewZone(n, z), now))],
      records := map[rn := record.(version := 6, status := Marked(record, n, true, now))])
  }

  function RefusalWrites(p: Params, n: string, z: ZoneSpec, rn: string, rec: RecordSpec, now: int): seq<Action> {
    [ WriteZoneStatus(ZoneController(n), n, 2, Refused(NewZone(n, z), now)),
      WriteRecordStatus(ZoneController(n), rn, 4, Marked(JudgedRecord(p, rn, rec, now), n, true, now)) ]
  }

  lemma RecordSteps(p: Params, n: string, z: ZoneSpec, rn: string, rec: RecordSpec, now: int)
    ensures var s, t, a := AfterSetup(n, z), WithRecord(p, n, z, rn, rec, now), RecordWrites(p, rn, rec, now);
      && Enabled(p, s, a[0]) && Enabled(p, Apply(p, s, a[0]), a[1]) && Apply(p, Apply(p, s, a[0]), a[1]) == t
  {
    hide ConstructRecord;
    var s, a := AfterSetup(n, z), RecordWrites(p, rn, rec, now);
    var mid := Apply(p, s, a[0]);
    assert mid.records == map[rn := NewRecord(rn, rec)];
    assert R.Judged(p, NewRecord(rn, rec), now).conditions != [];
    assert Apply(p, mid, a[1]).records == map[rn := JudgedRecord(p, rn, rec, now)];
  }

  function HalfRefused(p: Params, n: string, z: ZoneSpec, rn: string, rec: RecordSpec, now: int): State {
    WithRecord(p, n, z, rn, rec, now).(next := 6,
      zones := map[n := NewZone(n, z).(version := 5, status := Refused(NewZone(n, z), now))])
  }

  lemma RefusalStep(p: Params, n: string, z: ZoneSpec, rn: string, rec: RecordSpec, now: int)
    ensures var s, a := WithRecord(p, n, z, rn, rec, now), RefusalWrites(p, n, z, rn, rec, now)[0];
      Enabled(p, s, a) && Apply(p, s, a) == HalfRefused(p, n, z, rn, rec, now)
  {
    hide R.Judged, WrittenStatus, Told, Marked;
    var s, zone := WithRecord(p, n, z, rn, rec, now), NewZone(n, z);
    ToldNotReady(zone, "UpdateError", "Zone validation failure", now);
    assert ZoneStatusSet(s, n, Refused(zone, now)).zones == map[n := zone.(version := 5, status := Refused(zone, now))];
  }

  lemma MarkStep(p: Params, n: string, z: ZoneSpec, rn: string, rec: RecordSpec, now: int)
    ensures var s, a := HalfRefused(p, n, z, rn, rec, now), RefusalWrites(p, n, z, rn, rec, now)[1];
      Enabled(p, s, a) && Apply(p, s, a) == AfterRefusal(p, n, z, rn, rec, now)
  {
    hide ConstructRecord, Refused;
    var s, record := HalfRefused(p, n, z, rn, rec, now), JudgedRecord(p, rn, rec, now);
    var marked := Marked(record, n, true, now);
    assert marked.conditions[0].status && !record.status.conditions[0].status;
    assert RecordStatusSet(s, rn, marked).records == map[rn := record.(version := 6, status := marked)];
  }

  lemma RefusalSteps(p: Params, n: string, z: ZoneSpec, rn: string, rec: RecordSpec, now: int)
    ensures var s, t, a := WithRecord(p, n, z, rn, rec, now), AfterRefusal(p, n, z, rn, rec, now), RefusalWrites(p, n, z, rn, rec, now);
      && Enabled(p, s, a[0]) && Enabled(p, Apply(p, s, a[0]), a[1]) && Apply(p, Apply(p, s, a[0]), a[1]) == t
  {
    hide Enabled, Apply, WithRecord, AfterRefusal, HalfRefused;
    RefusalStep(p, n, z, rn, rec, now);
    MarkStep(p, n, z, rn, rec, now);
  }

  lemma RefusalRuns(p: Params, n: string, z: ZoneSpec, rn: string, rec: RecordSpec, now: int)
    requires NamesApart(p) && Admitted(z)
    ensures var before, rest := Setup(n, z) + RecordWrites(p, rn, rec, now), RefusalWrites(p, n, z, rn, rec, now);
      && Run(p, EmptyCluster(), before) == WithRecord(p, n, z, rn, rec, now)
      && Reachable(p, EmptyCluster(), before + rest)
      && Run(p, EmptyCluster(), before + rest) == AfterRefusal(p, n, z, rn, rec, now)
  {
    hide Enabled, Apply, Admitted, NamesApart, Reachable, Run, R.Judged, Refused, Marked;
    SetupRuns(p, n, z);
    RecordSteps(p, n, z, rn, rec, now);
    RefusalSteps(p, n, z, rn, rec, now);
    var setup, a, b := Setup(n, z), RecordWrites(p, rn, rec, now), RefusalWrites(p, n, z, rn, rec, now);
    OneMore(p, EmptyCluster(), setup, a[0]);
    OneMore(p, EmptyCluster(), setup + [a[0]], a[1]);
    assert setup + [a[0]] + [a[1]] == setup + a;
    OneMore(p, EmptyCluster(), setup + a, b[0]);
    OneMore(p, EmptyCluster(), setup + a + [b[0]], b[1]);
    assert setup + a + [b[0]] + [b[1]] == setup + a + b;
  }

  lemma RefusedPass(p: Params, n: string, z: ZoneSpec, rn: string, rec: RecordSpec, serial: string, now: int) returns (x: Printing)
    requires rec.zone == n && p.validate(ConstructRecord(rec)) && !p.validate(ConstructZoneFile(z, ConstructRecord(rec), serial))
    ensures x.cm == Rejected && x.acts + x.marks == RefusalWrites(p, n, z, rn, rec, now)
    ensures x.found == x.listed == WithRecord(p, n, z, rn, rec, now) && x.good == [JudgedRecord(p, rn, rec, now)]
    ensures Printed(p, AfterRefusal(p, n, z, rn, rec, now), NewZone(n, z), serial, now, Done, x)
  {
    hide ConstructRecord, ConstructZoneFile, ZoneData, MapName, Refused, Unlisted, Completed, StripData, HoldsMap,
      MapAsRead, Marked, Split;
    var t, record, a := WithRecord(p, n, z, rn, rec, now), JudgedRecord(p, rn, rec, now), RefusalWrites(p, n, z, rn, rec, now);
    var text := ConstructRecord(rec);
    assert Generated([record]) == [text] by { assert [record][..0] == []; }
    assert Join([text], '\n') == text;
    x := Printing(false, Rejected, None, t, [record], Baked(|Split(text, '\n')|, text), [record], t, [a[0]], [a[1]]);
    DecidesRejected(p, z, text, serial, None);
    assert MarksFor(n, [record], true, now) == [a[1]];
    R.JudgedSays(p, NewRecord(rn, rec), now);
    AllMarksSay(n, [record], [record], true, now, [a[1]]);
  }

  /**
   * A concrete run in which a refused zone file leaves a ready record behind that no ConfigMap
   * holds: for any zone and record of which the parser accepts the record and refuses the file.
   */
  lemma RefusedYetReady(p: Params, n: string, z: ZoneSpec, rn: string, rec: RecordSpec, serial: string, now: int)
    returns (start: State, before: seq<Action>, rest: seq<Action>, x: Printing)
    requires NamesApart(p) && Admitted(z) && rec.zone == n
    requires p.validate(ConstructRecord(rec)) && !p.validate(ConstructZoneFile(z, ConstructRecord(rec), serial))
    ensures PassOf(p, start, before, rest, NewZone(n, z), serial, now, Done, x) && PrintedWithin(p, start, before, x, before + rest)
    ensures var s := Run(p, start, before + rest);
      x.cm == Rejected && rn in s.records && s.records[rn].spec == rec && IsReady(s.records[rn].status.conditions) && s.maps == map[]
  {
    hide Printed, Reachable, Run, Admitted, NamesApart, ConstructZoneFile, ConstructRecord, Passed, Own, Refused,
      Marked, R.Judged, IsReady;
    start, before, rest := EmptyCluster(), Setup(n, z) + RecordWrites(p, rn, rec, now), RefusalWrites(p, n, z, rn, rec, now);
    RefusalRuns(p, n, z, rn, rec, now);
    OwnTwo(ZoneController(n), rest[0], rest[1]);
    x := RefusedPass(p, n, z, rn, rec, serial, now);
    R.JudgedSays(p, NewRecord(rn, rec), now);
    MarkedReady(JudgedRecord(p, rn, rec, now), n, true, now);
    PassedAt(p, start, before, before, before + rest);
  }
}
