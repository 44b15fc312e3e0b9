/** The schedule patch, what the API does with it, and why one patch is enough. */
module SchedulePatch {
  import opened Types
  import opened Schedules

  /** One schedule of a patch, in the shape its cadence is sent in; without an id it is created. */
  datatype Item =
    | OneTimeItem(id: Option<string>, name: string, enabled: bool, startAt: Time, endAt: Time,
                  settings: ScheduleSettings)
    | RecurringItem(id: Option<string>, name: string, enabled: bool, cadence: Cadence, weekdays: seq<Weekday>,
                    startHour: Option<int>, startMinute: int, endHour: Option<int>, endMinute: int,
                    settings: ScheduleSettings)

  /** None when a one-time window has a time that does not parse. */
  function Encode(s: Schedule): Option<Item> {
    var id := if s.id != "" then Some(s.id) else None;
    if s.cadence.OneTime? then
      if s.startAt.Stamp? && s.endAt.Stamp? then
        Some(OneTimeItem(id, s.name, s.enabled, s.startAt.instant, s.endAt.instant, s.settings))
      else None
    else
      Some(RecurringItem(id, s.name, s.enabled, s.cadence, s.weekdays, s.startHour, s.startMinute,
                         s.endHour, s.endMinute, s.settings))
  }

  /** How a stored item reads back; times come back to the second, in an offset of the API's choice. */
  function Decode(item: Item, id: string, offset: int): Schedule {
    match item
    case OneTimeItem(_, name, enabled, startAt, endAt, settings) =>
      Schedule(id, name, enabled, OneTime, [], None, 0, None, 0,
               Stamp(startAt - startAt % SECOND, offset), Stamp(endAt - endAt % SECOND, offset), settings)
    case RecurringItem(_, name, enabled, cadence, weekdays, startHour, startMinute, endHour, endMinute, settings) =>
      Schedule(id, name, enabled, cadence, weekdays, startHour, startMinute, endHour, endMinute,
               Raw(""), Raw(""), settings)
  }

  /** What is written reads back equal in normal form, whatever id and offset it comes back with. */
  lemma EncodeRoundTrip(s: Schedule, id: string, offset: int)
    requires Encode(s).Some?
    ensures Normalize(Decode(Encode(s).value, id, offset)) == Normalize(s)
  {
    if s.cadence.OneTime? {
      assert forall t: int :: (t - t % SECOND) % SECOND == 0;
    }
  }

  datatype Patch = Patch(timezone: Option<string>, schedules: Option<seq<Item>>, deletes: Option<seq<string>>)

  datatype BuildResult = NoPatch | Built(patch: Patch) | BuildError(name: string)

  ghost predicate Encodes(items: seq<Item>, upserts: seq<Schedule>) {
    |items| == |upserts| && forall k :: 0 <= k < |items| ==> Encode(upserts[k]) == Some(items[k])
  }

  /** A patch that carries the whole difference and the declared timezone. */
  ghost predicate Carries(p: Patch, spec: ScheduleConfig, d: ScheduleDiff) {
    && p.timezone == spec.timezone
    && (if d.upserts == [] then p.schedules.None? else p.schedules.Some? && Encodes(p.schedules.value, d.upserts))
    && p.deletes == if d.deletes == [] then None else Some(d.deletes)
  }

  ghost predicate CarriesDifference(p: Patch, spec: ScheduleConfig, observed: AutoscalingSchedules, now: Time) {
    exists d :: IsDiff(spec, observed, now, d) && Carries(p, spec, d)
  }

  /** There is no patch exactly when spec and environment agree. */
  method ToUpdateAutoscalingScheduleSettings(spec: Option<ScheduleConfig>, observed: Option<AutoscalingSchedules>,
                                             now: Time) returns (r: BuildResult)
    ensures r.NoPatch? <==> spec.None? || InSync(spec.value, OrNone(observed), now)
    ensures r.Built? ==> CarriesDifference(r.patch, spec.value, OrNone(observed), now)
    ensures r.BuildError? <==>
      && spec.Some? && !InSync(spec.value, OrNone(observed), now)
      && exists u :: u in Upserts(spec.value.schedules, OrNone(observed).schedules, now) && Encode(u).None?
  {
    var d := DiffSchedules(spec, observed, now);
    if spec.Some? {
      DiffEmptyIffInSync(spec.value, OrNone(observed), now, d);
    }
    if d.changes == 0 {
      return NoPatch;
    }
    var out := Patch(None, None, None);
    if spec.value.timezone.Some? {
      out := out.(timezone := spec.value.timezone);
    }
    if |d.upserts| > 0 {
      var schedules: seq<Item> := [];
      for k := 0 to |d.upserts|
        invariant |schedules| == k
        invariant forall i :: 0 <= i < k ==> Encode(d.upserts[i]) == Some(schedules[i])
      {
        var item := Encode(d.upserts[k]);
        if item.None? {
          assert d.upserts[k] in d.upserts;
          return BuildError(d.upserts[k].name);
        }
        schedules := schedules + [item.value];
      }
      out := out.(schedules := Some(schedules));
    }
    if |d.deletes| > 0 {
      out := out.(deletes := Some(d.deletes));
    }
    assert Carries(out, spec.value, d);
    return Built(out);
  }

  /* ---- the API's side ---- */

  /** How the API stores an item under an id, up to normal form. */
  type Store = (Item, string) -> Schedule

  ghost predicate Echoes(store: Store) {
    forall item, id {:trigger store(item, id)} ::
      store(item, id).id == id && Normalize(store(item, id)) == Normalize(Decode(item, id, 0))
  }

  function ItemFor(items: seq<Item>, id: string): Option<Item> {
    if items == [] then None
    else if items[0].id == Some(id) then Some(items[0])
    else ItemFor(items[1..], id)
  }

  /** Deleted schedules go, addressed ones are replaced, the others stay as they were. */
  function Kept(s: seq<Schedule>, deletes: seq<string>, items: seq<Item>, store: Store): seq<Schedule> {
    if s == [] then [] else
      var o := s[|s| - 1];
      Kept(s[..|s| - 1], deletes, items, store) +
      if o.id in deletes then []
      else if ItemFor(items, o.id).Some? then [store(ItemFor(items, o.id).value, o.id)]
      else [o]
  }

  /** Items without an id are created under fresh ids. */
  function Created(items: seq<Item>, store: Store, newId: nat -> string): seq<Schedule> {
    if items == [] then [] else
      Created(items[..|items| - 1], store, newId) +
      if items[|items| - 1].id.None? then [store(items[|items| - 1], newId(|items|))] else []
  }

  function ItemsOf(p: Patch): seq<Item> { if p.schedules.Some? then p.schedules.value else [] }
  function DeletesOf(p: Patch): seq<string> { if p.deletes.Some? then p.deletes.value else [] }

  function ApplyPatch(observed: AutoscalingSchedules, p: Patch, store: Store,
                      newId: nat -> string): AutoscalingSchedules {
    AutoscalingSchedules(
      if p.timezone.Some? then p.timezone else observed.timezone,
      Kept(observed.schedules, DeletesOf(p), ItemsOf(p), store) + Created(ItemsOf(p), store, newId),
      observed.applied)
  }

  /* ---- every observed schedule is untouched, replaced or deleted ---- */

  ghost predicate HasId(s: seq<Schedule>, id: string) {
    exists o :: o in s && o.id == id
  }

  lemma IdIdentifies(s: seq<Schedule>, o: Schedule, p: Schedule)
    requires IdsDistinct(s) && o in s && p in s && o.id == p.id
    ensures o == p && o.id != ""
  {
    var i :| 0 <= i < |s| && s[i] == o;
    var j :| 0 <= j < |s| && s[j] == p;
    assert i == j;
  }

  lemma InPrefix(s: seq<Schedule>, o: Schedule)
    requires s != [] && IdsDistinct(s)
    ensures IdsDistinct(s[..|s| - 1])
    ensures o in s <==> o in s[..|s| - 1] || o == s[|s| - 1]
    ensures o in s[..|s| - 1] ==> o.id != s[|s| - 1].id
  {
    assert s == s[..|s| - 1] + [s[|s| - 1]];
  }

  lemma {:induction false} DuplicateIdsExact(s: seq<Schedule>, o: Schedule)
    requires IdsDistinct(s) && o in s
    ensures o.id in DuplicateIds(s) <==> FirstNamed(s, o.name) != Some(o)
  {
    var init, last := s[..|s| - 1], s[|s| - 1];
    InPrefix(s, o);
    FirstNamedIsFirst(init, o.name);
    if o in init {
      DuplicateIdsExact(init, o);
    } else {
      IdsListed(init, {}, o.id);
      assert o == last;
      assert !HasId(init, o.id) by {
        if p :| p in init && p.id == o.id { InPrefix(s, p); }
      }
    }
  }

  lemma {:induction false} UnlistedIdsExact(s: seq<Schedule>, listed: set<string>, o: Schedule)
    requires IdsDistinct(s) && o in s
    ensures o.id in UnlistedIds(s, listed) <==> o.name !in listed
  {
    var init, last := s[..|s| - 1], s[|s| - 1];
    InPrefix(s, o);
    if o in init {
      UnlistedIdsExact(init, listed, o);
    } else {
      IdsListed(init, listed, o.id);
      assert !HasId(init, o.id) by {
        if p :| p in init && p.id == o.id { InPrefix(s, p); }
      }
    }
  }

  lemma {:induction false} IdsListed(s: seq<Schedule>, listed: set<string>, id: string)
    ensures id in DuplicateIds(s) || id in UnlistedIds(s, listed) ==> HasId(s, id)
  {
    if s == [] {
    } else {
      var init, last := s[..|s| - 1], s[|s| - 1];
      IdsListed(init, listed, id);
      assert last in s;
      assert HasId(init, id) ==> HasId(s, id) by {
        if o :| o in init && o.id == id { assert o in s; }
      }
    }
  }

  lemma {:induction false} ListedNames(ws: seq<SpecSchedule>)
    ensures forall n :: n in Names(ws) <==> exists w :: w in ws && w.name == n
  {
    if ws == [] {
    } else {
      ListedNames(ws[..|ws| - 1]);
      assert ws == ws[..|ws| - 1] + [ws[|ws| - 1]];
    }
  }

  /** The observed schedules a difference deletes. */
  ghost predicate Doomed(ws: seq<SpecSchedule>, s: seq<Schedule>, o: Schedule) {
    FirstNamed(s, o.name) != Some(o) || o.name !in Names(ws)
  }

  lemma DeletedIffDoomed(spec: ScheduleConfig, observed: AutoscalingSchedules, now: Time, d: ScheduleDiff, o: Schedule)
    requires IsDiff(spec, observed, now, d)
    requires IdsDistinct(observed.schedules) && o in observed.schedules
    ensures o.id in d.deletes <==> Doomed(spec.schedules, observed.schedules, o)
  {
    DuplicateIdsExact(observed.schedules, o);
    UnlistedIdsExact(observed.schedules, Names(spec.schedules), o);
  }

  /** A replacement is addressed to the first observed schedule of the same name. */
  lemma UpsertTarget(ws: seq<SpecSchedule>, s: seq<Schedule>, now: Time, w: SpecSchedule, u: Schedule)
    requires IdsDistinct(s) && Upsert(w, s, now) == Some(u)
    ensures u.name == w.name && Normalize(u) == Normalize(FromSpec(w))
    ensures u.id == "" <==> FirstNamed(s, w.name).None?
    ensures u.id != "" ==>
      && FirstNamed(s, w.name).Some?
      && FirstNamed(s, w.name).value in s
      && FirstNamed(s, w.name).value.id == u.id
      && FirstNamed(s, w.name).value.name == u.name
      && Normalize(u) != Normalize(FirstNamed(s, w.name).value)
  {
    FirstNamedIsFirst(s, w.name);
  }

  /** With the ids the API guarantees, the difference splits the observed schedules: deletions
      have no repeats and name only observed ids; each replacement goes to an observed schedule
      of its own name that is not deleted and differs in normal form. */
  lemma DiffPartitionsObserved(spec: ScheduleConfig, observed: AutoscalingSchedules, now: Time, d: ScheduleDiff)
    requires IsDiff(spec, observed, now, d)
    requires IdsDistinct(observed.schedules)
    ensures Distinct(d.deletes)
    ensures forall id :: id in d.deletes ==> HasId(observed.schedules, id)
    ensures forall u :: u in d.upserts && u.id != "" ==>
      && u.id !in d.deletes
      && exists o :: o in observed.schedules && o.id == u.id && o.name == u.name && Normalize(o) != Normalize(u)
  {
    var ws, s := spec.schedules, observed.schedules;
    forall id | id in d.deletes ensures HasId(s, id) {
      IdsListed(s, Names(ws), id);
    }
    UpsertsMembers(ws, s, now);
    ListedNames(ws);
    forall u | u in d.upserts && u.id != ""
      ensures u.id !in d.deletes
      ensures exists o :: o in s && o.id == u.id && o.name == u.name && Normalize(o) != Normalize(u)
    {
      var w :| w in ws && Upsert(w, s, now) == Some(u);
      UpsertTarget(ws, s, now, w, u);
      DeletedIffDoomed(spec, observed, now, d, FirstNamed(s, w.name).value);
    }
  }

  /** And the split leaves nothing out: an observed schedule is deleted exactly when its name is
      not listed or taken by an earlier one, is addressed by a replacement exactly when some
      schedule still due under its name differs from it in normal form, and is untouched otherwise. */
  lemma ObservedScheduleFate(spec: ScheduleConfig, observed: AutoscalingSchedules, now: Time, d: ScheduleDiff,
                             o: Schedule)
    requires IsDiff(spec, observed, now, d)
    requires IdsDistinct(observed.schedules) && o in observed.schedules
    ensures o.id in d.deletes <==> Doomed(spec.schedules, observed.schedules, o)
    ensures (exists u :: u in d.upserts && u.id == o.id) <==>
      && FirstNamed(observed.schedules, o.name) == Some(o)
      && exists w ::
        w in spec.schedules && w.name == o.name && !Expired(w, now) && Normalize(FromSpec(w)) != Normalize(o)
  {
    var ws, s := spec.schedules, observed.schedules;
    DeletedIffDoomed(spec, observed, now, d, o);
    UpsertsMembers(ws, s, now);
    if u :| u in d.upserts && u.id == o.id {
      IdIdentifies(s, o, o);
      var w :| w in ws && Upsert(w, s, now) == Some(u);
      UpsertTarget(ws, s, now, w, u);
      IdIdentifies(s, o, FirstNamed(s, w.name).value);
    }
    if FirstNamed(s, o.name) == Some(o) {
      if w :| w in ws && w.name == o.name && !Expired(w, now) && Normalize(FromSpec(w)) != Normalize(o) {
        assert Upsert(w, s, now) == Some(FromSpec(w).(id := o.id));
        assert FromSpec(w).(id := o.id) in d.upserts;
      }
    }
  }
}
