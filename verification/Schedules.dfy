/** Autoscaling schedules: normal forms, the difference between spec and environment, and the
    patch sent to the API. */
module Schedules {
  import opened Types

  /** A time as text: a parsable one is an instant written in some UTC offset. */
  datatype TimeText = Stamp(instant: Time, offset: int) | Raw(text: string)

  datatype Cadence = OneTime | Hourly | Daily | OtherCadence(text: string)

  /** A weekday name, by its alphabetical rank. */
  type Weekday = nat

  datatype ScheduleSettings = ScheduleSettings(
    minReplica: int, maxReplica: int, window: Option<int>, delay: Option<int>, concurrency: Option<int>,
    utilization: Option<int>, tokens: Option<int>, rate: Option<int>)

  /** A schedule as the spec declares it. */
  datatype SpecSchedule = SpecSchedule(
    name: string, enabled: Option<bool>, cadence: Cadence, weekdays: seq<Weekday>,
    startHour: Option<int>, startMinute: int, endHour: Option<int>, endMinute: int,
    startAt: TimeText, endAt: TimeText, settings: ScheduleSettings)

  datatype ScheduleConfig = ScheduleConfig(timezone: Option<string>, schedules: seq<SpecSchedule>)

  /** A schedule as the API reports it; the operator leaves `id` blank until it knows it. */
  datatype Schedule = Schedule(
    id: string, name: string, enabled: bool, cadence: Cadence, weekdays: seq<Weekday>,
    startHour: Option<int>, startMinute: int, endHour: Option<int>, endMinute: int,
    startAt: TimeText, endAt: TimeText, settings: ScheduleSettings)

  /** `applied` is the applied-state block and, in it, the id of the schedule now in force. */
  datatype AutoscalingSchedules = AutoscalingSchedules(
    timezone: Option<string>, schedules: seq<Schedule>, applied: Option<Option<string>>)

  const NO_SCHEDULES := AutoscalingSchedules(None, [], None)

  function OrNone(observed: Option<AutoscalingSchedules>): AutoscalingSchedules {
    if observed.Some? then observed.value else NO_SCHEDULES
  }

  predicate ScheduleActive(observed: Option<AutoscalingSchedules>) {
    observed.Some? && observed.value.applied.Some? && observed.value.applied.value.Some?
  }

  function FromSpec(s: SpecSchedule): Schedule {
    Schedule("", s.name, if s.enabled.Some? then s.enabled.value else true, s.cadence, s.weekdays,
             s.startHour, s.startMinute, s.endHour, s.endMinute, s.startAt, s.endAt, s.settings)
  }

  /** A one-time window that ended before `now`. */
  predicate Expired(s: SpecSchedule, now: Time) {
    s.cadence.OneTime? && s.endAt.Stamp? && s.endAt.instant < now
  }

  /** The same instant, whole seconds only, written in UTC. */
  function CanonicalTime(t: TimeText): TimeText {
    match t
    case Stamp(instant, _) => Stamp(instant - instant % SECOND, 0)
    case Raw(_) => t
  }

  function Insert(d: Weekday, s: seq<Weekday>): seq<Weekday> {
    if s == [] || d <= s[0] then [d] + s else [s[0]] + Insert(d, s[1..])
  }

  function SortedDays(s: seq<Weekday>): seq<Weekday> {
    if s == [] then [] else Insert(s[0], SortedDays(s[1..]))
  }

  /** Only what takes part in comparison for the schedule's cadence. */
  function Normalize(s: Schedule): Schedule {
    var s := s.(id := "");
    if s.cadence.OneTime? then
      s.(weekdays := [], startHour := None, startMinute := 0, endHour := None, endMinute := 0,
         startAt := CanonicalTime(s.startAt), endAt := CanonicalTime(s.endAt))
    else
      var s := s.(startAt := Raw(""), endAt := Raw(""));
      var s := if s.cadence.Hourly? then s.(startHour := None, endHour := None) else s;
      s.(weekdays := SortedDays(s.weekdays))
  }

  /* ---- normal forms ---- */

  predicate Ascending(s: seq<Weekday>) {
    forall i, j :: 0 <= i < j < |s| ==> s[i] <= s[j]
  }

  lemma {:induction false} InsertAdds(d: Weekday, s: seq<Weekday>)
    ensures multiset(Insert(d, s)) == multiset(s) + multiset{d}
  {
    if s == [] || d <= s[0] {
    } else {
      assert s == [s[0]] + s[1..];
      InsertAdds(d, s[1..]);
    }
  }

  lemma {:induction false} InsertSorts(d: Weekday, s: seq<Weekday>)
    requires Ascending(s)
    ensures Ascending(Insert(d, s))
  {
    if s == [] || d <= s[0] {
    } else {
      InsertSorts(d, s[1..]);
      InsertAdds(d, s[1..]);
      var rest := Insert(d, s[1..]);
      forall k | 0 <= k < |rest| ensures s[0] <= rest[k] {
        assert rest[k] in multiset(rest);
        assert rest[k] == d || rest[k] in s[1..];
      }
    }
  }

  lemma {:induction false} DaysSorted(s: seq<Weekday>)
    ensures Ascending(SortedDays(s)) && multiset(SortedDays(s)) == multiset(s)
  {
    if s == [] {
    } else {
      DaysSorted(s[1..]);
      InsertSorts(s[0], SortedDays(s[1..]));
      InsertAdds(s[0], SortedDays(s[1..]));
      assert s == [s[0]] + s[1..];
    }
  }

  lemma LeastFirst(a: seq<Weekday>, b: seq<Weekday>)
    requires Ascending(a) && Ascending(b) && multiset(a) == multiset(b) && a != [] && b != []
    ensures a[0] == b[0]
  {
    assert a[0] in multiset(b) && b[0] in multiset(a);
    var i :| 0 <= i < |b| && b[i] == a[0];
    var j :| 0 <= j < |a| && a[j] == b[0];
    assert a[0] <= a[j] && b[0] <= b[i];
  }

  lemma RestAlike(a: seq<Weekday>, b: seq<Weekday>)
    requires a != [] && b != [] && a[0] == b[0] && multiset(a) == multiset(b)
    ensures multiset(a[1..]) == multiset(b[1..])
  {
    assert a == [a[0]] + a[1..] && b == [b[0]] + b[1..];
    assert multiset(a[1..]) == multiset(a) - multiset{a[0]};
    assert multiset(b[1..]) == multiset(b) - multiset{b[0]};
  }

  lemma {:induction false} AscendingIsUnique(a: seq<Weekday>, b: seq<Weekday>)
    requires Ascending(a) && Ascending(b) && multiset(a) == multiset(b)
    ensures a == b
  {
    assert |multiset(a)| == |a| && |multiset(b)| == |b|;
    if a != [] {
      LeastFirst(a, b);
      RestAlike(a, b);
      AscendingIsUnique(a[1..], b[1..]);
      assert a == [a[0]] + a[1..] && b == [b[0]] + b[1..];
    }
  }

  lemma NormalFormIsStable(s: Schedule)
    ensures Normalize(Normalize(s)) == Normalize(s)
  {
    if s.cadence.OneTime? {
      CanonicalTwice(s.startAt);
      CanonicalTwice(s.endAt);
      hide CanonicalTime, SortedDays;
    } else {
      DaysTwice(s.weekdays);
      hide CanonicalTime, SortedDays;
    }
  }

  lemma DaysTwice(days: seq<Weekday>)
    ensures SortedDays(SortedDays(days)) == SortedDays(days)
  {
    DaysSorted(days);
    DaysSorted(SortedDays(days));
    AscendingIsUnique(SortedDays(SortedDays(days)), SortedDays(days));
  }

  lemma CanonicalTwice(t: TimeText)
    ensures CanonicalTime(CanonicalTime(t)) == CanonicalTime(t)
  {
  }

  /** Normal forms do not see the id, the order of the weekdays, or the UTC offset (and fraction
      of a second) in which a one-time window is written. */
  lemma NormalFormIsBlind(s: Schedule, t: Schedule)
    requires t == s.(id := t.id, weekdays := t.weekdays, startAt := t.startAt, endAt := t.endAt)
    requires multiset(t.weekdays) == multiset(s.weekdays)
    requires CanonicalTime(t.startAt) == CanonicalTime(s.startAt) && CanonicalTime(t.endAt) == CanonicalTime(s.endAt)
    ensures Normalize(t) == Normalize(s)
  {
    DaysSorted(s.weekdays);
    DaysSorted(t.weekdays);
    AscendingIsUnique(SortedDays(t.weekdays), SortedDays(s.weekdays));
    hide SortedDays, CanonicalTime;
  }

  /* ---- the difference ---- */

  predicate Distinct<T(==)>(s: seq<T>) {
    forall i, j :: 0 <= i < j < |s| ==> s[i] != s[j]
  }

  predicate NamesDistinct(s: seq<Schedule>) {
    forall i, j :: 0 <= i < j < |s| ==> s[i].name != s[j].name
  }

  /** The API gives every schedule its own id. */
  predicate IdsDistinct(s: seq<Schedule>) {
    && (forall i :: 0 <= i < |s| ==> s[i].id != "")
    && (forall i, j :: 0 <= i < j < |s| ==> s[i].id != s[j].id)
  }

  /** Guaranteed by the CRD's list-map key. */
  predicate SpecNamesDistinct(ws: seq<SpecSchedule>) {
    forall i, j :: 0 <= i < j < |ws| ==> ws[i].name != ws[j].name
  }

  function Names(ws: seq<SpecSchedule>): set<string> {
    if ws == [] then {} else Names(ws[..|ws| - 1]) + {ws[|ws| - 1].name}
  }

  /** The first schedule of that name. */
  function FirstNamed(s: seq<Schedule>, name: string): Option<Schedule> {
    if s == [] then None else
      var before := FirstNamed(s[..|s| - 1], name);
      if before.Some? then before
      else if s[|s| - 1].name == name then Some(s[|s| - 1])
      else None
  }

  /** What has to be written for one declared schedule: nothing when its window is over or the
      observed one is equal in normal form; else a replacement by id, or a creation. */
  function Upsert(w: SpecSchedule, s: seq<Schedule>, now: Time): Option<Schedule> {
    var o := FirstNamed(s, w.name);
    if Expired(w, now) then None
    else if o.None? then Some(FromSpec(w))
    else if Normalize(FromSpec(w)) != Normalize(o.value) then Some(FromSpec(w).(id := o.value.id))
    else None
  }

  function Upserts(ws: seq<SpecSchedule>, s: seq<Schedule>, now: Time): seq<Schedule> {
    if ws == [] then [] else
      var last := Upsert(ws[|ws| - 1], s, now);
      Upserts(ws[..|ws| - 1], s, now) + if last.Some? then [last.value] else []
  }

  /** Ids of the schedules whose name occurs earlier. */
  function DuplicateIds(s: seq<Schedule>): set<string> {
    if s == [] then {} else
      var init, o := s[..|s| - 1], s[|s| - 1];
      DuplicateIds(init) + if FirstNamed(init, o.name).Some? then {o.id} else {}
  }

  /** Ids of the schedules the spec does not list. */
  function UnlistedIds(s: seq<Schedule>, listed: set<string>): set<string> {
    if s == [] then {} else
      var o := s[|s| - 1];
      UnlistedIds(s[..|s| - 1], listed) + if o.name !in listed then {o.id} else {}
  }

  datatype ScheduleDiff = ScheduleDiff(upserts: seq<Schedule>, deletes: seq<string>, changes: nat)

  predicate TimezoneDiffers(spec: ScheduleConfig, observed: AutoscalingSchedules) {
    && spec.timezone.Some?
    && spec.timezone.value != if observed.timezone.Some? then observed.timezone.value else ""
  }

  /** What a difference is, whatever order the deletions are listed in. */
  ghost predicate IsDiff(spec: ScheduleConfig, observed: AutoscalingSchedules, now: Time, d: ScheduleDiff) {
    var s := observed.schedules;
    && Lists(d.deletes, DuplicateIds(s) + UnlistedIds(s, Names(spec.schedules)))
    && d.upserts == Upserts(spec.schedules, s, now)
    && (d.changes > 0 <==> TimezoneDiffers(spec, observed) || d.deletes != [] || d.upserts != [])
  }

  /** `ids` lists exactly the members of `all`, each once. */
  ghost predicate Lists(ids: seq<string>, all: set<string>) {
    Distinct(ids) && forall id :: id in ids <==> id in all
  }

  method DiffSchedules(spec: Option<ScheduleConfig>, observed: Option<AutoscalingSchedules>, now: Time)
      returns (d: ScheduleDiff)
    ensures spec.None? ==> d == ScheduleDiff([], [], 0)
    ensures spec.Some? ==> IsDiff(spec.value, OrNone(observed), now, d)
  {
    if spec.None? {
      return ScheduleDiff([], [], 0);
    }
    var obs := observed;
    if obs.None? {
      obs := Some(NO_SCHEDULES);
    }
    var changes: nat := 0;
    if spec.value.timezone.Some? &&
       spec.value.timezone.value != (if obs.value.timezone.Some? then obs.value.timezone.value else "") {
      changes := changes + 1;
    }
    var deletes, byName := RemoveDuplicates(obs.value.schedules);
    var upserts, inSpec := CollectUpserts(spec.value.schedules, obs.value.schedules, byName, now);
    deletes := RemoveUnlisted(obs.value.schedules, inSpec, deletes);
    changes := changes + |deletes| + |upserts|;
    d := ScheduleDiff(upserts, deletes, changes);
  }

  method RemoveDuplicates(s: seq<Schedule>) returns (deletes: seq<string>, byName: map<string, Schedule>)
    ensures Lists(deletes, DuplicateIds(s))
    ensures forall n :: if n in byName then FirstNamed(s, n) == Some(byName[n]) else FirstNamed(s, n).None?
  {
    var deleted: set<string> := {};
    deletes := [];
    byName := map[];
    for i := 0 to |s|
      invariant Lists(deletes, deleted) && deleted == DuplicateIds(s[..i])
      invariant forall n :: if n in byName then FirstNamed(s[..i], n) == Some(byName[n])
          else FirstNamed(s[..i], n).None?
    {
      var o := s[i];
      assert s[..i + 1][..i] == s[..i];
      if o.name in byName {
        if o.id !in deleted {
          deleted := deleted + {o.id};
          deletes := deletes + [o.id];
        }
        continue;
      }
      byName := byName[o.name := o];
    }
    assert s[..|s|] == s;
  }

  method CollectUpserts(ws: seq<SpecSchedule>, ghost s: seq<Schedule>, byName: map<string, Schedule>, now: Time)
      returns (upserts: seq<Schedule>, inSpec: set<string>)
    requires forall n :: if n in byName then FirstNamed(s, n) == Some(byName[n]) else FirstNamed(s, n).None?
    ensures upserts == Upserts(ws, s, now) && inSpec == Names(ws)
  {
    inSpec := {};
    upserts := [];
    for k := 0 to |ws|
      invariant inSpec == Names(ws[..k]) && upserts == Upserts(ws[..k], s, now)
    {
      var w := ws[k];
      assert ws[..k + 1][..k] == ws[..k];
      inSpec := inSpec + {w.name};
      if Expired(w, now) {
        continue;
      }
      var want := FromSpec(w);
      if w.name !in byName {
        upserts := upserts + [want];
      } else if Normalize(want) != Normalize(byName[w.name]) {
        want := want.(id := byName[w.name].id);
        upserts := upserts + [want];
      }
    }
    assert ws[..|ws|] == ws;
  }

  method RemoveUnlisted(s: seq<Schedule>, inSpec: set<string>, already: seq<string>) returns (deletes: seq<string>)
    requires Distinct(already)
    ensures Lists(deletes, (set id | id in already) + UnlistedIds(s, inSpec))
  {
    deletes := already;
    var deleted := set id | id in already;
    for i := 0 to |s|
      invariant Lists(deletes, deleted) && deleted == (set id | id in already) + UnlistedIds(s[..i], inSpec)
    {
      var o := s[i];
      assert s[..i + 1][..i] == s[..i];
      if o.name !in inSpec && o.id !in deleted {
        deleted := deleted + {o.id};
        deletes := deletes + [o.id];
      }
    }
    assert s[..|s|] == s;
  }

  /* ---- when there is nothing to do ---- */

  /** The environment already is what the spec declares, as of `now`. */
  ghost predicate InSync(spec: ScheduleConfig, observed: AutoscalingSchedules, now: Time) {
    var s := observed.schedules;
    && !TimezoneDiffers(spec, observed)
    && NamesDistinct(s)
    && (forall j :: 0 <= j < |s| ==> s[j].name in Names(spec.schedules))
    && (forall w :: w in spec.schedules && !Expired(w, now) ==> Present(w, s))
  }

  ghost predicate Present(w: SpecSchedule, s: seq<Schedule>) {
    exists o :: o in s && Normalize(o) == Normalize(FromSpec(w))
  }

  lemma {:induction false} FirstNamedIsFirst(s: seq<Schedule>, name: string)
    ensures FirstNamed(s, name).None? <==> forall o :: o in s ==> o.name != name
    ensures FirstNamed(s, name).Some? ==> FirstNamed(s, name).value in s && FirstNamed(s, name).value.name == name
  {
    if s == [] {
    } else {
      var init := s[..|s| - 1];
      FirstNamedIsFirst(init, name);
      assert s == init + [s[|s| - 1]];
    }
  }

  lemma {:induction false} NoDuplicatesIffDistinct(s: seq<Schedule>)
    ensures DuplicateIds(s) == {} <==> NamesDistinct(s)
  {
    if s == [] {
    } else {
      NoDuplicatesIffDistinct(s[..|s| - 1]);
      LastNameNew(s);
    }
  }

  lemma LastNameNew(s: seq<Schedule>)
    requires s != []
    ensures var init, o := s[..|s| - 1], s[|s| - 1];
      && (FirstNamed(init, o.name).None? <==> forall i :: 0 <= i < |init| ==> s[i].name != o.name)
      && (NamesDistinct(s) <==> NamesDistinct(init) && FirstNamed(init, o.name).None?)
  {
    var init, o := s[..|s| - 1], s[|s| - 1];
    FirstNamedIsFirst(init, o.name);
    assert forall i :: 0 <= i < |init| ==> s[i] == init[i] && init[i] in init;
  }

  lemma {:induction false} NoneUnlisted(s: seq<Schedule>, listed: set<string>)
    ensures UnlistedIds(s, listed) == {} <==> forall j :: 0 <= j < |s| ==> s[j].name in listed
  {
    if s == [] {
    } else {
      NoneUnlisted(s[..|s| - 1], listed);
    }
  }

  lemma {:induction false} UpsertsMembers(ws: seq<SpecSchedule>, s: seq<Schedule>, now: Time)
    ensures forall u :: u in Upserts(ws, s, now) <==> exists w :: w in ws && Upsert(w, s, now) == Some(u)
  {
    if ws == [] {
    } else {
      var init := ws[..|ws| - 1];
      UpsertsMembers(init, s, now);
      assert ws == init + [ws[|ws| - 1]];
    }
  }

  lemma NormalFormKeepsName(o: Schedule)
    ensures Normalize(o).name == o.name
  {
    hide SortedDays, CanonicalTime;
  }

  lemma NothingToWrite(w: SpecSchedule, s: seq<Schedule>, now: Time)
    requires NamesDistinct(s)
    ensures Upsert(w, s, now).None? <==> Expired(w, now) || Present(w, s)
  {
    FirstNamedIsFirst(s, w.name);
    if Present(w, s) {
      var o :| o in s && Normalize(o) == Normalize(FromSpec(w));
      NormalFormKeepsName(o);
      NormalFormKeepsName(FromSpec(w));
      hide Normalize;
      assert FirstNamed(s, w.name).value == o;
    }
  }

  /** A difference reports changes exactly when the environment is not in sync. */
  lemma DiffEmptyIffInSync(spec: ScheduleConfig, observed: AutoscalingSchedules, now: Time, d: ScheduleDiff)
    requires IsDiff(spec, observed, now, d)
    ensures d.changes == 0 <==> InSync(spec, observed, now)
  {
    var ws, s := spec.schedules, observed.schedules;
    NoDuplicatesIffDistinct(s);
    NoneUnlisted(s, Names(ws));
    UpsertsMembers(ws, s, now);
    assert d.deletes == [] <==> DuplicateIds(s) + UnlistedIds(s, Names(ws)) == {} by {
      assert d.deletes != [] ==> d.deletes[0] in d.deletes;
    }
    assert d.upserts == [] <==> forall w :: w in ws ==> Upsert(w, s, now).None? by {
      assert d.upserts != [] ==> d.upserts[0] in d.upserts;
      assert forall w :: w in ws && Upsert(w, s, now).Some? ==> Upsert(w, s, now).value in d.upserts;
    }
    if NamesDistinct(s) {
      forall w ensures Upsert(w, s, now).None? <==> Expired(w, now) || Present(w, s) {
        NothingToWrite(w, s, now);
      }
    }
  }
}
