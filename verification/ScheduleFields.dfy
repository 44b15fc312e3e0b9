/** When schedules count as the same, field by field, and what follows for the difference. */
module ScheduleFields {
  import opened Types
  import opened Schedules
  import SchedulePatch

  /** The same second, whatever the offset it is written in; text that is no time is compared as it is. */
  predicate SameMoment(a: TimeText, b: TimeText) {
    if a.Stamp? && b.Stamp? then a.instant / 1_000_000_000 == b.instant / 1_000_000_000
    else a.Raw? && b.Raw? && a.text == b.text
  }

  /** What takes part in the comparison, by cadence. */
  predicate SameFields(s: Schedule, t: Schedule) {
    && s.name == t.name && s.enabled == t.enabled && s.cadence == t.cadence && s.settings == t.settings
    && if s.cadence == OneTime then SameMoment(s.startAt, t.startAt) && SameMoment(s.endAt, t.endAt)
       else
         && multiset(s.weekdays) == multiset(t.weekdays)
         && s.startMinute == t.startMinute && s.endMinute == t.endMinute
         && (s.cadence == Hourly || (s.startHour == t.startHour && s.endHour == t.endHour))
  }

  lemma MomentsAgree(a: TimeText, b: TimeText)
    ensures CanonicalTime(a) == CanonicalTime(b) <==> SameMoment(a, b)
  {
    if a.Stamp? && b.Stamp? {
      assert a.instant - a.instant % SECOND == SECOND * (a.instant / SECOND);
      assert b.instant - b.instant % SECOND == SECOND * (b.instant / SECOND);
    }
  }

  lemma DaysAgree(a: seq<Weekday>, b: seq<Weekday>)
    ensures SortedDays(a) == SortedDays(b) <==> multiset(a) == multiset(b)
  {
    DaysSorted(a);
    DaysSorted(b);
    if multiset(a) == multiset(b) {
      AscendingIsUnique(SortedDays(a), SortedDays(b));
    }
  }

  /** Two schedules have one normal form if and only if they agree in the fields of their cadence:
      nothing more is lost, and nothing less. */
  lemma NormalFormsAgreeExactlyWhen(s: Schedule, t: Schedule)
    ensures Normalize(s) == Normalize(t) <==> SameFields(s, t)
  {
    MomentsAgree(s.startAt, t.startAt);
    MomentsAgree(s.endAt, t.endAt);
    DaysAgree(s.weekdays, t.weekdays);
    hide CanonicalTime, SortedDays, SameMoment;
  }

  /** A schedule as the spec declares it, with the id it is to be written under. */
  function Declared(w: SpecSchedule, id: string): Schedule {
    Schedule(id, w.name, w.enabled.None? || w.enabled.value, w.cadence, w.weekdays, w.startHour, w.startMinute,
             w.endHour, w.endMinute, w.startAt, w.endAt, w.settings)
  }

  /** A one-time window that is over. */
  predicate Over(w: SpecSchedule, now: Time) {
    w.cadence == OneTime && w.endAt.Stamp? && w.endAt.instant < now
  }

  /** The observed schedules are what the spec declares. */
  ghost predicate Agrees(spec: ScheduleConfig, observed: AutoscalingSchedules, now: Time) {
    var ws, s := spec.schedules, observed.schedules;
    && (spec.timezone.Some? ==> spec.timezone.value == if observed.timezone.Some? then observed.timezone.value else "")
    && (forall i, j :: 0 <= i < j < |s| ==> s[i].name != s[j].name)
    && (forall o :: o in s ==> exists w :: w in ws && w.name == o.name)
    && (forall w :: w in ws && !Over(w, now) ==> exists o :: o in s && SameFields(o, Declared(w, "")))
  }

  lemma AgreesExactlyInSync(spec: ScheduleConfig, observed: AutoscalingSchedules, now: Time)
    ensures Agrees(spec, observed, now) <==> InSync(spec, observed, now)
  {
    var ws, s := spec.schedules, observed.schedules;
    SchedulePatch.ListedNames(ws);
    forall w, o ensures SameFields(o, Declared(w, "")) <==> Normalize(o) == Normalize(FromSpec(w)) {
      NormalFormsAgreeExactlyWhen(o, FromSpec(w));
    }
    hide Normalize, SameFields, Names;
    assert forall j :: 0 <= j < |s| ==> s[j] in s;
  }

  /** No schedule of that name stands earlier. */
  ghost predicate FirstOfName(s: seq<Schedule>, i: nat)
    requires i < |s|
  {
    forall j :: 0 <= j < i ==> s[j].name != s[i].name
  }

  lemma FirstOfNameInit(s: seq<Schedule>, i: nat)
    requires i < |s| - 1
    ensures FirstOfName(s[..|s| - 1], i) <==> FirstOfName(s, i)
  {
    assert forall j :: 0 <= j <= i ==> s[..|s| - 1][j] == s[j];
  }

  lemma {:induction false} FirstNamedStands(s: seq<Schedule>, name: string) returns (i: nat)
    requires FirstNamed(s, name).Some?
    ensures i < |s| && s[i].name == name && FirstOfName(s, i) && FirstNamed(s, name) == Some(s[i])
  {
    var init, n := s[..|s| - 1], |s| - 1;
    FirstNamedIsFirst(init, name);
    if FirstNamed(init, name).Some? {
      i := FirstNamedStands(init, name);
      FirstOfNameInit(s, i);
    } else {
      i := n;
      assert forall j :: 0 <= j < n ==> s[j] in init;
    }
  }

  lemma OneStandsFirst(s: seq<Schedule>, i: nat, j: nat)
    requires i < |s| && j < |s| && FirstOfName(s, i) && FirstOfName(s, j) && s[i].name == s[j].name
    ensures i == j
  {
  }

  /** A schedule has to be written for a declared one that is not over: as it is if none of its name
      is observed, and in place of the first of its name if that one differs in some field. */
  ghost predicate Due(w: SpecSchedule, s: seq<Schedule>, now: Time, u: Schedule) {
    && !Over(w, now)
    && (|| (u == Declared(w, "") && forall o :: o in s ==> o.name != w.name)
        || (exists i: nat ::
              && i < |s| && s[i].name == w.name && FirstOfName(s, i)
              && !SameFields(s[i], Declared(w, "")) && u == Declared(w, s[i].id)))
  }

  lemma UpsertsWhenDue(w: SpecSchedule, s: seq<Schedule>, now: Time, u: Schedule)
    ensures Upsert(w, s, now) == Some(u) <==> Due(w, s, now, u)
  {
    FirstNamedIsFirst(s, w.name);
    if FirstNamed(s, w.name).Some? {
      var i := FirstNamedStands(s, w.name);
      NormalFormsAgreeExactlyWhen(s[i], FromSpec(w));
      forall j: nat | j < |s| && s[j].name == w.name && FirstOfName(s, j) ensures j == i {
        OneStandsFirst(s, i, j);
      }
      hide Normalize, SameFields, FirstNamed, FirstOfName;
    } else {
      hide Normalize, SameFields, FirstNamed, FirstOfName;
    }
  }

  /** The difference writes exactly what is due, in the fields of spec and environment. */
  lemma WritesExactlyWhatIsDue(spec: ScheduleConfig, observed: AutoscalingSchedules, now: Time, d: ScheduleDiff)
    requires IsDiff(spec, observed, now, d)
    ensures forall u :: u in d.upserts <==> exists w :: w in spec.schedules && Due(w, observed.schedules, now, u)
  {
    var ws, s := spec.schedules, observed.schedules;
    UpsertsMembers(ws, s, now);
    forall w, u ensures Upsert(w, s, now) == Some(u) <==> Due(w, s, now, u) {
      UpsertsWhenDue(w, s, now, u);
    }
    hide Upsert, Due, Upserts;
  }

  /** An observed schedule has to go: its name stands earlier, or is not declared. */
  ghost predicate Unwanted(ws: seq<SpecSchedule>, s: seq<Schedule>, i: nat)
    requires i < |s|
  {
    !FirstOfName(s, i) || forall w :: w in ws ==> w.name != s[i].name
  }

  lemma UnwantedInit(ws: seq<SpecSchedule>, s: seq<Schedule>, i: nat)
    requires i < |s| - 1
    ensures s[..|s| - 1][i] == s[i] && (Unwanted(ws, s[..|s| - 1], i) <==> Unwanted(ws, s, i))
  {
    FirstOfNameInit(s, i);
    hide FirstOfName;
  }

  lemma LastUnwanted(ws: seq<SpecSchedule>, s: seq<Schedule>)
    requires s != []
    ensures var init, o := s[..|s| - 1], s[|s| - 1];
      FirstNamed(init, o.name).Some? || o.name !in Names(ws) <==> Unwanted(ws, s, |s| - 1)
  {
    var init, o := s[..|s| - 1], s[|s| - 1];
    FirstNamedIsFirst(init, o.name);
    SchedulePatch.ListedNames(ws);
    assert forall i :: 0 <= i < |init| ==> init[i] in init && init[i] == s[i];
  }

  ghost predicate HoldsUnwanted(ws: seq<SpecSchedule>, s: seq<Schedule>, id: string) {
    exists i: nat :: i < |s| && s[i].id == id && Unwanted(ws, s, i)
  }

  lemma UnwantedGrows(ws: seq<SpecSchedule>, s: seq<Schedule>, id: string)
    requires s != []
    ensures HoldsUnwanted(ws, s, id) <==>
      HoldsUnwanted(ws, s[..|s| - 1], id) || (s[|s| - 1].id == id && Unwanted(ws, s, |s| - 1))
  {
    forall i: nat | i < |s| - 1
      ensures s[..|s| - 1][i] == s[i] && (Unwanted(ws, s[..|s| - 1], i) <==> Unwanted(ws, s, i))
    {
      UnwantedInit(ws, s, i);
    }
    hide Unwanted;
    if HoldsUnwanted(ws, s[..|s| - 1], id) {
      var i: nat :| i < |s| - 1 && s[..|s| - 1][i].id == id && Unwanted(ws, s[..|s| - 1], i);
      assert s[i].id == id && Unwanted(ws, s, i);
    }
  }

  lemma {:induction false} UnwantedIds(ws: seq<SpecSchedule>, s: seq<Schedule>, id: string)
    ensures id in DuplicateIds(s) + UnlistedIds(s, Names(ws)) <==> HoldsUnwanted(ws, s, id)
  {
    if s == [] {
    } else {
      UnwantedIds(ws, s[..|s| - 1], id);
      LastUnwanted(ws, s);
      UnwantedGrows(ws, s, id);
      hide HoldsUnwanted, Unwanted, FirstNamed, Names;
    }
  }

  /** The difference deletes exactly the ids of the unwanted. */
  lemma DeletesExactlyTheUnwanted(spec: ScheduleConfig, observed: AutoscalingSchedules, now: Time, d: ScheduleDiff)
    requires IsDiff(spec, observed, now, d)
    ensures forall id :: id in d.deletes <==> HoldsUnwanted(spec.schedules, observed.schedules, id)
  {
    hide HoldsUnwanted, DuplicateIds, UnlistedIds, Names;
    forall id ensures id in d.deletes <==> HoldsUnwanted(spec.schedules, observed.schedules, id) {
      UnwantedIds(spec.schedules, observed.schedules, id);
    }
  }
}
