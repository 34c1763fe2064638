/**
 * notifyGoodDNSZones, and why the connector's passes come to rest although every zone it
 * touches asks for another pass.
 */
module Notices {
  import opened Objects
  import opened Cluster
  import opened Invariants
  import opened ConnectorSpecs

  datatype Notice = Notice(ready: bool, reason: string, message: string)

  const PICKED_UP := Notice(true, "Active", "Picked up by " + "DNSConnector.")
  const REMOVED := Notice(false, "Pending", "DNSConnector " + "has been removed")

  /** A served zone is ready, one whose connector goes is not. */
  lemma NoticesAre()
    ensures PICKED_UP.ready && !REMOVED.ready
  {}

  function NoticeCondition(z: DNSZone, notice: Notice, now: int): Condition {
    Condition(READY, notice.ready, notice.reason, notice.message, z.generation, now)
  }

  function Noticed(z: DNSZone, notice: Notice, now: int): ZoneStatus {
    z.status.(conditions := SetStatusCondition(z.status.conditions, NoticeCondition(z, notice, now)))
  }

  /** The zone's Ready condition is not yet the one the notice sets. */
  predicate Due(s: State, n: string, notice: Notice) {
    && n in s.zones && s.zones[n].status.validationPassed
    && Noticed(s.zones[n], notice, 0) != s.zones[n].status
  }

  // ---- setting a condition ----

  lemma {:induction false} SetAgain(conditions: seq<Condition>, c: Condition, later: int)
    ensures SetStatusCondition(SetStatusCondition(conditions, c), c.(since := later)) == SetStatusCondition(conditions, c)
  {
    if conditions != [] && conditions[0].kind != c.kind {
      SetAgain(conditions[1..], c, later);
      assert SetStatusCondition(conditions, c)[1..] == SetStatusCondition(conditions[1..], c);
    }
  }

  /** Whether setting changes anything does not depend on the time. */
  lemma {:induction false} SetWhenever(conditions: seq<Condition>, c: Condition, later: int)
    requires SetStatusCondition(conditions, c) == conditions
    ensures SetStatusCondition(conditions, c.(since := later)) == conditions
  {
    SetAgain(conditions, c, later);
  }

  /** On the statuses the controllers write, a notice is due exactly if one of its fields differs. */
  lemma DueIff(p: Params, s: State, n: string, notice: Notice)
    requires Inv(p, s) && n in s.zones && s.zones[n].status.validationPassed
    ensures |s.zones[n].status.conditions| == 1
    ensures var c := s.zones[n].status.conditions[0];
      Due(s, n, notice) <==>
      c.status != notice.ready || c.reason != notice.reason || c.message != notice.message || c.generation != s.zones[n].generation
  {
    hide MapsOk, RecordsOk, CoreOk, VersionsOk, MapName, Admitted;
    ZoneOkAt(p, s, n);
    var conditions := s.zones[n].status.conditions;
    assert conditions == [conditions[0]];
  }

  // ---- a pass over the zones that nothing disturbs ----

  function NotifyOne(s: State, n: string, notice: Notice, now: int): State {
    if n in s.zones && s.zones[n].status.validationPassed then ZoneStatusSet(s, n, Noticed(s.zones[n], notice, now)) else s
  }

  function NotifyAll(s: State, names: seq<string>, notice: Notice, now: int): State {
    if names == [] then s
    else NotifyOne(NotifyAll(s, names[..|names| - 1], notice, now), names[|names| - 1], notice, now)
  }

  predicate Named(s: State) {
    forall n <- s.zones :: s.zones[n].name == n
  }

  /** The same zones, with the same specs and checkpoints. */
  predicate SameZones(s: State, t: State) {
    && t.zones.Keys == s.zones.Keys
    && forall m <- s.zones ::
         && t.zones[m].spec == s.zones[m].spec && t.zones[m].status.checkpoint == s.zones[m].status.checkpoint
  }

  /** The zone's condition says so, if it is validated. */
  predicate ZoneSays(s: State, n: string, ready: bool) {
    n in s.zones && s.zones[n].status.validationPassed ==> Says(s.zones[n].status.conditions, ready, s.zones[n].generation)
  }

  predicate ZonesOwn(s: State) {
    forall n <- s.zones :: OwnConditions(s.zones[n].status.conditions)
  }

  lemma NoticedSays(z: DNSZone, notice: Notice, now: int)
    requires OwnConditions(z.status.conditions)
    ensures Says(Noticed(z, notice, now).conditions, notice.ready, z.generation)
    ensures OwnConditions(Noticed(z, notice, now).conditions)
    ensures Noticed(z, notice, now).(conditions := z.status.conditions) == z.status
  {
    SetSays(z.status.conditions, NoticeCondition(z, notice, now));
  }

  lemma NotifyOneSays(s: State, n: string, notice: Notice, now: int)
    requires Named(s) && ZonesOwn(s)
    ensures var t := NotifyOne(s, n, notice, now);
      && Named(t) && ZonesOwn(t) && t.zones.Keys == s.zones.Keys && ZoneSays(t, n, notice.ready)
      && forall m <- s.zones :: m != n ==> t.zones[m] == s.zones[m]
  {
    hide Noticed, OwnConditions, Says;
    if n in s.zones {
      NoticedSays(s.zones[n], notice, now);
    }
  }

  /** After the loop every zone it told says what it was told. */
  lemma {:induction false} NotifyAllSays(s: State, names: seq<string>, notice: Notice, now: int)
    requires Named(s) && ZonesOwn(s)
    ensures var t := NotifyAll(s, names, notice, now);
      && Named(t) && ZonesOwn(t) && t.zones.Keys == s.zones.Keys && forall n <- names :: ZoneSays(t, n, notice.ready)
  {
    hide NotifyOne, Named, ZonesOwn, Says;
    if names != [] {
      var init, last := names[..|names| - 1], names[|names| - 1];
      assert names == init + [last];
      NotifyAllSays(s, init, notice, now);
      NotifyOneSays(NotifyAll(s, init, notice, now), last, notice, now);
    }
  }

  /** All these zones are there, and the validated ones say so. */
  ghost predicate ZonesSay(t: State, zones: seq<DNSZone>, ready: bool) {
    forall z <- zones :: z.name in t.zones && ZoneSays(t, z.name, ready)
  }

  lemma ToldZonesSay(p: Params, s: State, connector: string, zones: seq<DNSZone>, m: State, notice: Notice, now: int, t: State)
    requires Inv(p, s) && GoodZones(s, connector, zones) && m.zones == s.zones
    requires t.zones == NotifyAll(m, Names(zones), notice, now).zones
    ensures ZonesSay(t, zones, notice.ready)
  {
    hide NotifyAll, MapsOk, RecordsOk, CoreOk, Says;
    assert Named(m) && ZonesOwn(m);
    NotifyAllSays(m, Names(zones), notice, now);
    forall z <- zones ensures z.name in t.zones && ZoneSays(t, z.name, notice.ready) {
      var i :| 0 <= i < |zones| && zones[i] == z;
      assert Names(zones)[i] in Names(zones);
    }
  }

  lemma NotifyOneFacts(s: State, n: string, notice: Notice, now: int)
    requires Named(s)
    ensures Named(NotifyOne(s, n, notice, now))
    ensures var t := NotifyOne(s, n, notice, now); forall m <- s.zones :: m != n ==> m in t.zones && t.zones[m] == s.zones[m]
    ensures !Due(s, n, notice) ==> NotifyOne(s, n, notice, now) == s
    ensures !Due(NotifyOne(s, n, notice, now), n, notice)
    ensures Due(s, n, notice) ==> NotifyOne(s, n, notice, now).next > s.next
    ensures SameZones(s, NotifyOne(s, n, notice, now)) && NotifyOne(s, n, notice, now).next >= s.next
  {
    if n in s.zones {
      var z := s.zones[n];
      SetAgain(z.status.conditions, NoticeCondition(z, notice, now), 0);
      if !Due(s, n, notice) && z.status.validationPassed {
        SetWhenever(z.status.conditions, NoticeCondition(z, notice, 0), now);
      }
    }
  }

  lemma OthersDue(s: State, t: State, m: string, notice: Notice)
    requires m in s.zones && m in t.zones && t.zones[m] == s.zones[m]
    ensures Due(t, m, notice) == Due(s, m, notice)
  {}

  /** A pass changes something exactly when some notice is due, and leaves none due. */
  lemma {:induction false} NotifyAllFacts(s: State, names: seq<string>, notice: Notice, now: int)
    requires Named(s)
    ensures var t := NotifyAll(s, names, notice, now);
      && Named(t) && SameZones(s, t) && t.next >= s.next
      && (forall n <- names :: !Due(t, n, notice))
      && (forall m <- s.zones :: m !in names ==> t.zones[m] == s.zones[m])
      && ((exists n <- names :: Due(s, n, notice)) <==> t != s)
      && (t != s ==> t.next > s.next)
  {
    hide Due, NotifyOne, Named;
    if names != [] {
      var init, last := names[..|names| - 1], names[|names| - 1];
      assert names == init + [last];
      var mid := NotifyAll(s, init, notice, now);
      NotifyAllFacts(s, init, notice, now);
      NotifyOneFacts(mid, last, notice, now);
      var t := NotifyAll(s, names, notice, now);
      DueInZones(mid, last, notice);
      forall n <- names ensures !Due(t, n, notice) {
        DueInZones(t, n, notice);
        if n != last && n in t.zones {
          OthersDue(mid, t, n, notice);
        }
      }
      if last !in init && last in s.zones {
        OthersDue(s, mid, last, notice);
      }
      DueInZones(s, last, notice);
    }
  }

  lemma DueInZones(s: State, n: string, notice: Notice)
    ensures Due(s, n, notice) ==> n in s.zones
  {}

  function Names(zones: seq<DNSZone>): seq<string> {
    seq(|zones|, i requires 0 <= i < |zones| => zones[i].name)
  }

  /**
   * A connector pass that started in s, told its good zones in the state m and ended in t, left
   * the zone objects as m's loop did. Completed passes are of this kind if nobody else acts.
   */
  ghost predicate PassedOver(s: State, connector: string, zones: seq<DNSZone>, m: State, now: int, t: State) {
    && GoodZones(s, connector, zones) && m.zones == s.zones
    && t.zones == NotifyAll(m, Names(zones), PICKED_UP, now).zones
  }

  lemma SameZonesSameDue(s: State, t: State, n: string, notice: Notice)
    requires s.zones == t.zones
    ensures Due(s, n, notice) == Due(t, n, notice)
  {}

  lemma OnceTold(s: State, zones: seq<DNSZone>, now: int)
    requires Named(s)
    ensures var t := NotifyAll(s, Names(zones), PICKED_UP, now);
      && SameZones(s, t) && Named(t)
      && (forall z <- zones :: !Due(t, z.name, PICKED_UP))
      && (t.zones != s.zones <==> exists z <- zones :: Due(s, z.name, PICKED_UP))
  {
    hide Due, NotifyAll, Named;
    var t := NotifyAll(s, Names(zones), PICKED_UP, now);
    NotifyAllFacts(s, Names(zones), PICKED_UP, now);
    forall z <- zones ensures !Due(t, z.name, PICKED_UP) && (Due(s, z.name, PICKED_UP) ==> t.zones != s.zones) {
      var i :| 0 <= i < |zones| && zones[i] == z;
      assert Names(zones)[i] in Names(zones);
      if t.zones == s.zones {
        SameZonesSameDue(s, t, z.name, PICKED_UP);
      }
    }
  }

  /**
   * Reconcile-loop termination. A completed pass of a connector changes zone objects exactly when
   * some validated good zone does not carry the notice yet; the next one, whenever it runs, in
   * whatever order it lists the zones and whatever happened to other objects in between, changes
   * no zone object, so it triggers no further pass.
   */
  lemma PassesComeToRest(p: Params, connector: string, s: State, first: seq<DNSZone>, m: State, now: int, t: State,
                         r: State, second: seq<DNSZone>, n: State, later: int, u: State)
    requires Inv(p, s) && PassedOver(s, connector, first, m, now, t)
    requires r.zones == t.zones && PassedOver(r, connector, second, n, later, u)
    ensures t.zones != s.zones <==> exists z <- first :: Due(s, z.name, PICKED_UP)
    ensures u.zones == t.zones
  {
    hide Due, NotifyAll, MapsOk, ZonesOk, RecordsOk, CoreOk;
    assert Named(m) && Named(s);
    var told := NotifyAll(m, Names(first), PICKED_UP, now);
    OnceTold(m, first, now);
    OnceTold(n, second, later);
    forall z <- first ensures Due(s, z.name, PICKED_UP) == Due(m, z.name, PICKED_UP) {
      SameZonesSameDue(s, m, z.name, PICKED_UP);
    }
    forall z <- second ensures !Due(n, z.name, PICKED_UP) {
      assert s.zones[z.name] in first;
      SameZonesSameDue(told, n, z.name, PICKED_UP);
    }
  }
}
