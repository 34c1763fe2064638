/** The DNSRecord controller (internal/controller/dnsrecord_controller.go, dnsrecord_construction.go). */
module RecordReconciler {
  import opened Objects
  import opened ZoneFile
  import opened Cluster
  import opened Invariants
  import opened Environment
  import opened Safety
  import opened Api
  import opened Finalizers

  /** The status handleGenericRecord computes: the printed record and the parser's verdict on it. */
  function Judged(p: Params, rec: DNSRecord, now: int): RecordStatus {
    var text := ConstructRecord(rec.spec);
    var condition :=
      if p.validate(text) then Condition(READY, false, "Pending", "Record has been constructed", rec.generation, now)
      else Condition(READY, false, "Degraded", "Record validation failure", rec.generation, now);
    RecordStatus(SetStatusCondition(rec.status.conditions, condition), p.validate(text), text)
  }

  /** The judgement in full: it never says ready, and carries the printed record and the verdict on it. */
  lemma JudgedSays(p: Params, rec: DNSRecord, now: int)
    requires OwnConditions(rec.status.conditions)
    ensures Says(Judged(p, rec, now).conditions, false, rec.generation) && OneReady(Judged(p, rec, now).conditions)
    ensures !IsReady(Judged(p, rec, now).conditions)
  {
    hide ConstructRecord;
    var text := ConstructRecord(rec.spec);
    SetSays(rec.status.conditions, Condition(READY, false, "Pending", "Record has been constructed", rec.generation, now));
    SetSays(rec.status.conditions, Condition(READY, false, "Degraded", "Record validation failure", rec.generation, now));
    SaysReady(Judged(p, rec, now).conditions, false, rec.generation);
  }

  lemma OwnRecord(p: Params, s: State, n: string)
    requires Inv(p, s) && n in s.records
    ensures OwnConditions(s.records[n].status.conditions)
  {
    hide MapsOk, ZonesOk, CoreOk, VersionsOk;
  }

  lemma JudgementPrepared(p: Params, read: State, s: State, n: string, now: int)
    requires NamesApart(p) && Inv(p, read) && n in read.records && Rely(p, RecordController(n), read, s)
    ensures var rec := read.records[n];
      Prepared(p, RecordController(n), s, WriteRecordStatus(RecordController(n), n, rec.version, Judged(p, rec, now)))
  {
    hide Fresh, Steady, MapsOk, ZonesOk, RecordsOk, CoreOk, ConstructRecord, NamesApart, OneReady, OwnConditions;
    var rec, me := read.records[n], RecordController(n);
    OwnRecord(p, read, n);
    JudgedSays(p, rec, now);
    var a := WriteRecordStatus(me, n, rec.version, Judged(p, rec, now));
    forall t: State | Inv(p, t) && Rely(p, me, s, t) && Accepts(p, t, a) ensures Enabled(p, t, a) {
      RelyTwice(p, me, read, s, t);
      SameRecord(read, t, n);
    }
  }

  /** How handleGenericRecord ends: an API error, the validation error, or the record. */
  datatype Verdict = Faulted | Invalid | Valid(text: string)

  /** handleGenericRecord; its refresh fetches into a copy that is thrown away, so only the error of it counts. */
  method HandleGenericRecord(api: ApiServer, rec: DNSRecord, now: int) returns (r: Verdict, ghost acts: seq<Action>)
    requires api.Valid() && rec.name in api.s.records && api.s.records[rec.name] == rec
    modifies api
    ensures api.Valid() && old(api.trace) <= api.trace
    ensures var me := RecordController(rec.name); Own(me, api.trace) == Own(me, old(api.trace)) + acts
    ensures acts == [] || acts == [WriteRecordStatus(RecordController(rec.name), rec.name, rec.version, Judged(api.p, rec, now))]
    ensures forall a <- acts :: a.WriteRecordStatus? && Says(a.recordStatus.conditions, false, rec.generation)
    ensures r.Valid? ==> r.text == ConstructRecord(rec.spec) && api.p.validate(r.text)
    ensures r.Invalid? ==> !api.p.validate(ConstructRecord(rec.spec))
    ensures !r.Faulted? ==> acts != [] || rec.status == Judged(api.p, rec, now)
  {
    hide Inv, Reachable, Run, Rely, Accepts, Enabled, Apply, Prepared, Judged, ConstructRecord, NamesApart, Says,
      OwnConditions;
    ghost var read := api.s;
    OwnRecord(api.p, read, rec.name);
    JudgedSays(api.p, rec, now);
    r, acts := Faulted, [];
    var me := RecordController(rec.name);
    var text := ConstructRecord(rec.spec);
    var valid := api.p.validate(text);
    var fetched := api.GetRecord(me, rec.name);
    if !fetched.Found? {
      return;
    }
    var status := Judged(api.p, rec, now);
    if status != rec.status {
      JudgementPrepared(api.p, read, api.s, rec.name, now);
      var ok;
      ghost var mid;
      ok, mid, acts := api.Write(me, WriteRecordStatus(me, rec.name, rec.version, status));
      if !ok {
        return;
      }
    }
    r := if valid then Valid(text) else Invalid;
  }

  /** Reconcile: `read` is the record as fetched; it gets the finalizer, or is let go, or is judged. */
  method Reconcile(api: ApiServer, n: string, now: int) returns (r: Outcome, read: Option<DNSRecord>, ghost acts: seq<Action>)
    requires api.Valid()
    modifies api
    ensures api.Valid() && old(api.trace) <= api.trace
    ensures Own(RecordController(n), api.trace) == Own(RecordController(n), old(api.trace)) + acts
    ensures read.None? ==> r != Requeue && acts == []
    ensures read.Some? && !read.value.finalizer ==>
      && r != Done && OneFinalizerWrite(acts, RecordRef(n), true) && (r == Requeue ==> Carries(api.p, api.s, RecordRef(n)))
    ensures read.Some? && read.value.finalizer && read.value.deleting ==>
      && r != Requeue && OneFinalizerWrite(acts, RecordRef(n), false) && (r == Done ==> n !in api.s.records)
    ensures read.Some? && read.value.finalizer && !read.value.deleting ==>
      && r != Requeue && (r == Done ==> api.p.validate(ConstructRecord(read.value.spec)))
      && (acts == [] || acts == [WriteRecordStatus(RecordController(n), n, read.value.version, Judged(api.p, read.value, now))])
      && (r == Done ==> acts != [] || read.value.status == Judged(api.p, read.value, now))
  {
    hide Inv, Reachable, Run, Rely, Accepts, Enabled, Apply, ConstructRecord, NamesApart, Judged, AtMostOneWrite;
    read, acts := None, [];
    ghost var mid;
    var ok;
    var fetched := api.GetRecord(RecordController(n), n);
    if fetched.NotFound? {
      return Done, read, acts;
    }
    if fetched.Failed? {
      return Error, read, acts;
    }
    var rec := fetched.value;
    read := Some(rec);
    if !rec.finalizer {
      ok, acts, mid := AddFinalizer(api, RecordRef(n));
      return if ok then Requeue else Error, read, acts;
    }
    if rec.deleting {
      ok, acts, mid := RemoveFinalizer(api, RecordRef(n));
      return if ok then Done else Error, read, acts;
    }
    NamedAs(api.p, api.s, n);
    var verdict;
    verdict, acts := HandleGenericRecord(api, rec, now);
    r := if verdict.Valid? then Done else Error;
  }
}
