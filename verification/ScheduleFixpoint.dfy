/** One schedule patch brings the environment in sync, for good. */
module ScheduleFixpoint {
  import opened Types
  import opened Schedules
  import opened SchedulePatch

  /* ---- items and upserts ---- */

  lemma {:induction false} ItemForUpsert(items: seq<Item>, upserts: seq<Schedule>, id: string)
    requires Encodes(items, upserts) && id != ""
    ensures ItemFor(items, id).Some? ==>
      ItemFor(items, id).value.id == Some(id) &&
      exists u :: u in upserts && u.id == id && Encode(u) == ItemFor(items, id)
    ensures (exists u :: u in upserts && u.id == id) ==> ItemFor(items, id).Some?
  {
    if items == [] {
    } else {
      assert Encode(upserts[0]) == Some(items[0]) && upserts[0] in upserts;
      assert upserts == [upserts[0]] + upserts[1..];
      ItemForUpsert(items[1..], upserts[1..], id);
    }
  }

  lemma {:induction false} UpsertNamesDistinct(ws: seq<SpecSchedule>, s: seq<Schedule>, now: Time)
    requires SpecNamesDistinct(ws)
    ensures NamesDistinct(Upserts(ws, s, now))
  {
    if ws == [] {
    } else {
      var init, w := ws[..|ws| - 1], ws[|ws| - 1];
      UpsertNamesDistinct(init, s, now);
      UpsertsMembers(init, s, now);
      var before := Upserts(init, s, now);
      forall k | 0 <= k < |before| ensures before[k].name != w.name {
        assert before[k] in before;
        var v :| v in init && Upsert(v, s, now) == Some(before[k]);
        assert v.name == before[k].name;
      }
    }
  }

  /** The schedule that made a replacement due is the only one of its name. */
  lemma SameSpecSchedule(ws: seq<SpecSchedule>, v: SpecSchedule, w: SpecSchedule)
    requires SpecNamesDistinct(ws) && v in ws && w in ws && v.name == w.name
    ensures v == w
  {
    var i :| 0 <= i < |ws| && ws[i] == v;
    var j :| 0 <= j < |ws| && ws[j] == w;
    assert i == j;
  }

  /** An item for a schedule comes from the declared schedule of the same name. */
  lemma ReplacementOf(ws: seq<SpecSchedule>, s: seq<Schedule>, now: Time, items: seq<Item>, o: Schedule)
    requires IdsDistinct(s) && o in s && Encodes(items, Upserts(ws, s, now))
    requires ItemFor(items, o.id).Some?
    ensures exists w ::
      && w in ws && w.name == o.name && FirstNamed(s, o.name) == Some(o) && Upsert(w, s, now).Some?
      && Encode(Upsert(w, s, now).value) == ItemFor(items, o.id)
  {
    IdIdentifies(s, o, o);
    var upserts := Upserts(ws, s, now);
    ItemForUpsert(items, upserts, o.id);
    UpsertsMembers(ws, s, now);
    var u :| u in upserts && u.id == o.id && Encode(u) == ItemFor(items, o.id);
    var w :| w in ws && Upsert(w, s, now) == Some(u);
    UpsertTarget(ws, s, now, w, u);
    IdIdentifies(s, o, FirstNamed(s, w.name).value);
  }

  lemma EchoKeeps(store: Store, item: Item, id: string, u: Schedule)
    requires Echoes(store) && Encode(u) == Some(item)
    ensures store(item, id).id == id && Normalize(store(item, id)) == Normalize(u) && store(item, id).name == u.name
  {
    EncodeRoundTrip(u, id, 0);
    assert Normalize(store(item, id)).name == store(item, id).name;
  }

  /* ---- what the patched collection consists of ---- */

  function Stored(o: Schedule, items: seq<Item>, store: Store): Schedule {
    if ItemFor(items, o.id).Some? then store(ItemFor(items, o.id).value, o.id) else o
  }

  lemma {:induction false} KeptMembers(s: seq<Schedule>, deletes: seq<string>, items: seq<Item>, store: Store)
    ensures forall x :: x in Kept(s, deletes, items, store) <==>
      exists o :: o in s && o.id !in deletes && x == Stored(o, items, store)
  {
    if s == [] {
    } else {
      KeptMembers(s[..|s| - 1], deletes, items, store);
      assert s == s[..|s| - 1] + [s[|s| - 1]];
    }
  }

  lemma {:induction false} CreatedMembers(items: seq<Item>, store: Store, newId: nat -> string)
    ensures forall x :: x in Created(items, store, newId) ==>
      exists k :: 0 <= k < |items| && items[k].id.None? && x == store(items[k], newId(k + 1))
    ensures forall k :: 0 <= k < |items| && items[k].id.None? ==>
        store(items[k], newId(k + 1)) in Created(items, store, newId)
  {
    if items == [] {
    } else {
      var init := items[..|items| - 1];
      CreatedMembers(init, store, newId);
      assert forall k :: 0 <= k < |init| ==> init[k] == items[k];
    }
  }

  /** Names are kept by storing, and no two schedules that stay share one. */
  ghost predicate Separable(s: seq<Schedule>, deletes: seq<string>, items: seq<Item>, store: Store) {
    && (forall o :: o in s ==> Stored(o, items, store).name == o.name)
    && (forall o, p :: o in s && p in s && o.id !in deletes && p.id !in deletes && o.name == p.name ==> o == p)
  }

  lemma {:induction false} KeptNamesDistinct(s: seq<Schedule>, deletes: seq<string>, items: seq<Item>, store: Store)
    requires IdsDistinct(s) && Separable(s, deletes, items, store)
    ensures NamesDistinct(Kept(s, deletes, items, store))
  {
    if s == [] {
    } else {
      var init, last := s[..|s| - 1], s[|s| - 1];
      assert forall o :: o in init ==> o in s;
      KeptNamesDistinct(init, deletes, items, store);
      KeptMembers(init, deletes, items, store);
      var before := Kept(init, deletes, items, store);
      if last.id !in deletes {
        assert last in s && Stored(last, items, store).name == last.name;
        forall k | 0 <= k < |before| ensures before[k].name != last.name {
          assert before[k] in before;
          var o :| o in init && o.id !in deletes && before[k] == Stored(o, items, store);
          InPrefix(s, o);
          assert last in s && o in s;
        }
      }
    }
  }

  lemma {:induction false} CreatedNamesDistinct(items: seq<Item>, upserts: seq<Schedule>, store: Store,
                                                newId: nat -> string)
    requires Encodes(items, upserts) && NamesDistinct(upserts) && Echoes(store)
    ensures NamesDistinct(Created(items, store, newId))
  {
    if items == [] {
    } else {
      var n := |items| - 1;
      var init := items[..n];
      CreatedNamesDistinct(init, upserts[..n], store, newId);
      CreatedMembers(init, store, newId);
      var before := Created(init, store, newId);
      EchoKeeps(store, items[n], newId(|items|), upserts[n]);
      forall i | 0 <= i < |before| ensures before[i].name != upserts[n].name {
        assert before[i] in before;
        var k :| 0 <= k < n && init[k].id.None? && before[i] == store(init[k], newId(k + 1));
        EchoKeeps(store, init[k], newId(k + 1), upserts[k]);
      }
    }
  }

  /* ---- the order in which the API lists schedules does not matter ---- */

  lemma {:induction false} CountOfDistinct(a: seq<Schedule>, x: Schedule)
    requires NamesDistinct(a)
    ensures multiset(a)[x] <= 1
  {
    if a == [] {
    } else {
      var init, last := a[..|a| - 1], a[|a| - 1];
      assert a == init + [last];
      CountOfDistinct(init, x);
      if x == last {
        assert forall i :: 0 <= i < |init| ==> a[i].name != last.name;
        assert x !in init;
      }
    }
  }

  lemma CountOfRepeated(b: seq<Schedule>, i: nat, j: nat)
    requires i < j < |b| && b[i] == b[j]
    ensures multiset(b)[b[i]] >= 2
  {
    assert b == b[..j] + [b[j]] + b[j + 1..];
    assert b[i] in b[..j];
  }

  lemma NamesDistinctInAnyOrder(a: seq<Schedule>, b: seq<Schedule>)
    requires NamesDistinct(a) && multiset(a) == multiset(b)
    ensures NamesDistinct(b)
  {
    forall i, j | 0 <= i < j < |b| ensures b[i].name != b[j].name {
      assert b[i] in multiset(a) && b[j] in multiset(a);
      if b[i] == b[j] {
        CountOfDistinct(a, b[i]);
        CountOfRepeated(b, i, j);
        assert false;
      } else {
        assert b[i] in a && b[j] in a;
      }
    }
  }

  /* ---- the fixpoint ---- */

  lemma PatchedNamesDistinct(ws: seq<SpecSchedule>, s: seq<Schedule>, now: Time, deletes: seq<string>, items: seq<Item>,
                             store: Store, newId: nat -> string)
    requires SpecNamesDistinct(ws) && IdsDistinct(s) && Echoes(store)
    requires Encodes(items, Upserts(ws, s, now))
    requires forall o :: o in s ==> (o.id in deletes <==> Doomed(ws, s, o))
    ensures NamesDistinct(Kept(s, deletes, items, store) + Created(items, store, newId))
  {
    var upserts := Upserts(ws, s, now);
    var kept, created := Kept(s, deletes, items, store), Created(items, store, newId);
    forall o | o in s ensures Stored(o, items, store).name == o.name {
      StoredName(ws, s, now, items, store, o);
    }
    KeptNamesDistinct(s, deletes, items, store);
    UpsertNamesDistinct(ws, s, now);
    CreatedNamesDistinct(items, upserts, store, newId);
    forall i, j | 0 <= i < |kept| && 0 <= j < |created| ensures kept[i].name != created[j].name {
      assert kept[i] in kept && created[j] in created;
      KeptMembers(s, deletes, items, store);
      var o :| o in s && o.id !in deletes && kept[i] == Stored(o, items, store);
      CreatedName(ws, s, now, items, store, newId, created[j]);
      FirstNamedIsFirst(s, created[j].name);
    }
  }

  lemma StoredName(ws: seq<SpecSchedule>, s: seq<Schedule>, now: Time, items: seq<Item>, store: Store, o: Schedule)
    requires IdsDistinct(s) && Echoes(store) && Encodes(items, Upserts(ws, s, now)) && o in s
    ensures Stored(o, items, store).name == o.name
  {
    if ItemFor(items, o.id).Some? {
      ReplacementOf(ws, s, now, items, o);
      var w :| w in ws && w.name == o.name && Upsert(w, s, now).Some? &&
               Encode(Upsert(w, s, now).value) == ItemFor(items, o.id);
      EchoKeeps(store, ItemFor(items, o.id).value, o.id, Upsert(w, s, now).value);
    }
  }

  lemma CreatedName(ws: seq<SpecSchedule>, s: seq<Schedule>, now: Time, items: seq<Item>, store: Store,
                    newId: nat -> string, x: Schedule)
    requires IdsDistinct(s) && Echoes(store) && Encodes(items, Upserts(ws, s, now))
    requires x in Created(items, store, newId)
    ensures FirstNamed(s, x.name).None? && exists w :: w in ws && w.name == x.name
  {
    hide Upserts, Created, FirstNamed, IdsDistinct, Normalize;
    var upserts := Upserts(ws, s, now);
    CreatedMembers(items, store, newId);
    var k :| 0 <= k < |items| && items[k].id.None? && x == store(items[k], newId(k + 1));
    EchoKeeps(store, items[k], newId(k + 1), upserts[k]);
    assert upserts[k] in upserts && upserts[k].name == x.name && upserts[k].id == "";
    FreshUpsert(ws, s, now, upserts[k]);
  }

  /** An upsert without an id is for a declared name not observed yet. */
  lemma FreshUpsert(ws: seq<SpecSchedule>, s: seq<Schedule>, now: Time, u: Schedule)
    requires IdsDistinct(s) && u in Upserts(ws, s, now) && u.id == ""
    ensures FirstNamed(s, u.name).None? && exists w :: w in ws && w.name == u.name
  {
    UpsertsMembers(ws, s, now);
    var w :| w in ws && Upsert(w, s, now) == Some(u);
    UpsertTarget(ws, s, now, w, u);
  }

  lemma PatchedNamesListed(ws: seq<SpecSchedule>, s: seq<Schedule>, now: Time, deletes: seq<string>, items: seq<Item>,
                           store: Store, newId: nat -> string, x: Schedule)
    requires IdsDistinct(s) && Echoes(store) && Encodes(items, Upserts(ws, s, now))
    requires forall o :: o in s ==> (o.id in deletes <==> Doomed(ws, s, o))
    requires x in Kept(s, deletes, items, store) || x in Created(items, store, newId)
    ensures x.name in Names(ws)
  {
    ListedNames(ws);
    if x in Kept(s, deletes, items, store) {
      KeptMembers(s, deletes, items, store);
      var o :| o in s && o.id !in deletes && x == Stored(o, items, store);
      StoredName(ws, s, now, items, store, o);
    } else {
      CreatedName(ws, s, now, items, store, newId, x);
    }
  }

  /** Every declared schedule that is still due ends up in the collection. */
  lemma PatchedContains(ws: seq<SpecSchedule>, s: seq<Schedule>, now: Time, deletes: seq<string>, items: seq<Item>,
                        store: Store, newId: nat -> string, w: SpecSchedule)
    requires SpecNamesDistinct(ws) && IdsDistinct(s) && Echoes(store) && w in ws && !Expired(w, now)
    requires Encodes(items, Upserts(ws, s, now))
    requires forall o :: o in s ==> (o.id in deletes <==> Doomed(ws, s, o))
    ensures Present(w, Kept(s, deletes, items, store) + Created(items, store, newId))
  {
    var upserts := Upserts(ws, s, now);
    UpsertsMembers(ws, s, now);
    FirstNamedIsFirst(s, w.name);
    if FirstNamed(s, w.name).None? {
      assert FromSpec(w) in upserts;
      var k :| 0 <= k < |upserts| && upserts[k] == FromSpec(w);
      assert Encode(upserts[k]) == Some(items[k]);
      CreatedMembers(items, store, newId);
      EchoKeeps(store, items[k], newId(k + 1), upserts[k]);
      assert store(items[k], newId(k + 1)) in Created(items, store, newId);
    } else {
      var o := FirstNamed(s, w.name).value;
      ListedNames(ws);
      KeptMembers(s, deletes, items, store);
      assert Stored(o, items, store) in Kept(s, deletes, items, store);
      KeptInForm(ws, s, now, items, store, w);
    }
  }

  lemma KeptInForm(ws: seq<SpecSchedule>, s: seq<Schedule>, now: Time, items: seq<Item>, store: Store, w: SpecSchedule)
    requires SpecNamesDistinct(ws) && IdsDistinct(s) && Echoes(store) && w in ws && !Expired(w, now)
    requires Encodes(items, Upserts(ws, s, now))
    requires FirstNamed(s, w.name).Some?
    ensures Normalize(Stored(FirstNamed(s, w.name).value, items, store)) == Normalize(FromSpec(w))
  {
    FirstNamedIsFirst(s, w.name);
    var o := FirstNamed(s, w.name).value;
    if ItemFor(items, o.id).Some? {
      ReplacementOf(ws, s, now, items, o);
      var v :| v in ws && v.name == o.name && Upsert(v, s, now).Some? &&
               Encode(Upsert(v, s, now).value) == ItemFor(items, o.id);
      SameSpecSchedule(ws, v, w);
      EchoKeeps(store, ItemFor(items, o.id).value, o.id, Upsert(w, s, now).value);
    } else {
      IdIdentifies(s, o, o);
      UpsertsMembers(ws, s, now);
      ItemForUpsert(items, Upserts(ws, s, now), o.id);
      assert Upsert(w, s, now).Some? ==> Upsert(w, s, now).value.id == o.id;
    }
  }

  /** Sending the patch once is enough: whatever ids, offsets and listing order the API answers
      with, spec and environment agree afterwards, then and at any later time. */
  lemma OnePatchIsEnough(spec: ScheduleConfig, observed: AutoscalingSchedules, now: Time, p: Patch,
                         store: Store, newId: nat -> string, after: AutoscalingSchedules, later: Time)
    requires SpecNamesDistinct(spec.schedules) && IdsDistinct(observed.schedules)
    requires CarriesDifference(p, spec, observed, now) && Echoes(store)
    requires after.timezone == ApplyPatch(observed, p, store, newId).timezone
    requires multiset(after.schedules) == multiset(ApplyPatch(observed, p, store, newId).schedules)
    requires now <= later
    ensures InSync(spec, after, later)
  {
    var d :| IsDiff(spec, observed, now, d) && Carries(p, spec, d);
    var ws, s, items, deletes := spec.schedules, observed.schedules, ItemsOf(p), DeletesOf(p);
    forall o | o in s ensures o.id in deletes <==> Doomed(ws, s, o) {
      DeletedIffDoomed(spec, observed, now, d, o);
    }
    var patched := Kept(s, deletes, items, store) + Created(items, store, newId);
    PatchedNamesDistinct(ws, s, now, deletes, items, store, newId);
    NamesDistinctInAnyOrder(patched, after.schedules);
    forall x | x in after.schedules ensures x.name in Names(ws) {
      assert x in multiset(patched);
      PatchedNamesListed(ws, s, now, deletes, items, store, newId, x);
    }
    forall w | w in ws && !Expired(w, later) ensures Present(w, after.schedules) {
      PatchedContains(ws, s, now, deletes, items, store, newId, w);
      var o :| o in patched && Normalize(o) == Normalize(FromSpec(w));
      assert o in multiset(after.schedules);
    }
  }
}
