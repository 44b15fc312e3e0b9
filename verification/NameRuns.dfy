/** Hash and name of the push over runs with stale, conflicting and lost writes, edits of the spec
    and write-backs of pushes in between. */
module NameRuns {
  import opened Types
  import opened Drift
  import opened Baseten
  import opened Model
  import opened StatusUpdates
  import opened Steps
  import opened Pushes
  import opened PassPush
  import opened PassNames
  import opened Runs

  /** The pass computed hash and name together. */
  ghost predicate Computes(p: Pass, hash: string, name: string) {
    Reads(p.c) && TrussHash(p.c) == hash && TrussName(p.c) == name
  }

  /** The pass announced a push of this hash, found no slot, and blanked the name. */
  ghost predicate Blanks(p: Pass, hash: string) {
    Reads(p.c) && TrussHash(p.c) == hash && FindsNoSlot(p.c, p.read.status, p.read.finalizer)
  }

  /** The pass worked for a source the spec names, without any configuration. */
  ghost predicate TakesName(p: Pass, name: string) {
    p.c.spec.truss.None? && p.c.spec.sourceDeploymentName == name
  }

  ghost predicate Wrote(p: Pass, hash: string, name: string) {
    Computes(p, hash, name) || (name == "" && Blanks(p, hash)) || TakesName(p, name)
  }

  /** Nothing was ever pushed, or some pass of the run wrote this name next to this hash. */
  ghost predicate Accounted(passes: seq<Pass>, st: Status) {
    || (st.trussConfigHash == "" && st.sourceDeploymentName == "")
    || exists k :: 0 <= k < |passes| && Wrote(passes[k], st.trussConfigHash, st.sourceDeploymentName)
  }

  ghost predicate AllAccounted(w: World) {
    forall r :: r in w.history ==> Accounted(w.passes, r.status)
  }

  /** Passes are only added, and what they read and see stays. */
  ghost predicate Continues(passes: seq<Pass>, passes': seq<Pass>) {
    && |passes| <= |passes'|
    && forall k :: 0 <= k < |passes| ==> passes'[k].c == passes[k].c && passes'[k].read == passes[k].read
  }

  lemma AccountedLater(passes: seq<Pass>, passes': seq<Pass>, st: Status, st': Status)
    requires Accounted(passes, st) && Continues(passes, passes') && SameName(st, st')
    ensures Accounted(passes', st')
  {
    hide FindsNoSlot, TrussHash, TrussName;
    if k :| 0 <= k < |passes| && Wrote(passes[k], st.trussConfigHash, st.sourceDeploymentName) {
      assert Wrote(passes'[k], st.trussConfigHash, st.sourceDeploymentName);
    }
  }

  lemma WriteAccounted(w: World, k: nat, n: nat)
    requires k < |w.passes| && n < |w.passes[k].Trail().writes| && Accounted(w.passes, w.passes[k].read.status)
    ensures Accounted(w.passes, w.passes[k].Trail().writes[n])
  {
    hide Reconcile, FindsNoSlot, TrussHash, TrussName;
    var p := w.passes[k];
    var st := p.Trail().writes[n];
    PassNamesSoundly(p.c, p.read.status, p.read.finalizer);
    assert st in p.Trail().writes;
    if SameName(p.read.status, st) {
      AccountedLater(w.passes, w.passes, p.read.status, st);
    } else {
      assert Wrote(p, st.trussConfigHash, st.sourceDeploymentName);
    }
  }

  /** What an event adds to the history keeps hash and name, or is a write of a pass. */
  lemma NextAccounted(w: World, e: Event)
    requires Invariant(w) && Enabled(w, e) && AllAccounted(w)
    ensures AllAccounted(Next(w, e))
  {
    hide Reconcile, VersionOk, Prompt, Accounted, PutsRetryOnRecord, FollowsRetryCall;
    var w' := Next(w, e);
    assert w.Latest() in w.history;
    assert Continues(w.passes, w'.passes);
    forall r | r in w'.history ensures Accounted(w'.passes, r.status) {
      if r in w.history {
        AccountedLater(w.passes, w'.passes, r.status, r.status);
      } else if e.SendWrite? {
        var p := w.passes[e.pass];
        assert p in w.passes && PassOk(w.history, w.named, p);
        WriteAccounted(w, e.pass, p.sent);
        AccountedLater(w.passes, w'.passes, p.Trail().writes[p.sent], r.status);
      } else {
        AccountedLater(w.passes, w'.passes, w.Latest().status, r.status);
      }
    }
  }

  /** In every run every stored name was written next to its hash by some pass that computed both,
      that blanked the name for want of a slot, or that was given it by the spec. */
  lemma {:induction false} NamesAreAccountedFor(ws: seq<World>, es: seq<Event>, i: nat)
    requires Run(ws, es) && i < |ws|
    ensures AllAccounted(ws[i])
    decreases i
  {
    hide Next, Enabled, Accounted;
    RunKeepsInvariant(ws, es, i);
    if i == 0 {
      assert Accounted([], BLANK_STATUS) by { BlankAccounted(); }
    } else {
      NamesAreAccountedFor(ws, es, i - 1);
      RunKeepsInvariant(ws, es, i - 1);
      assert Enabled(ws[i - 1], es[i - 1]) && ws[i - 1 + 1] == Next(ws[i - 1], es[i - 1]);
      NextAccounted(ws[i - 1], es[i - 1]);
    }
  }

  lemma BlankAccounted()
    ensures Accounted([], BLANK_STATUS)
  {
  }

  /** Among the passes of a world equal hashes stand for equal names. */
  ghost predicate HashesDecide(passes: seq<Pass>) {
    forall j, k :: 0 <= j < |passes| && 0 <= k < |passes| && Reads(passes[j].c) && Reads(passes[k].c)
                   && TrussHash(passes[j].c) == TrussHash(passes[k].c) ==>
      TrussName(passes[j].c) == TrussName(passes[k].c)
  }

  /** Why a name may not be the one its hash stands for: some pass had no slot for a push of this
      very hash, or worked for a source of this name that the spec gave. */
  ghost predicate Parted(passes: seq<Pass>, hash: string, name: string) {
    exists k :: 0 <= k < |passes| && ((name == "" && Blanks(passes[k], hash)) || TakesName(passes[k], name))
  }

  /** Whenever a pass of any run reads its own hash, it reads the name it would compute itself,
      unless the two have been parted: then the fast path gives that name, and a recorded wait for
      the next push is kept. */
  lemma OwnHashMeansOwnName(ws: seq<World>, es: seq<Event>, i: nat, p: Pass, modelID: string)
    requires Run(ws, es) && i < |ws| && p in ws[i].passes && HashesDecide(ws[i].passes)
    requires Reads(p.c) && TrussHash(p.c) != "" && p.read.status.trussConfigHash == TrussHash(p.c)
    ensures var st := p.read.status;
      || Parted(ws[i].passes, st.trussConfigHash, st.sourceDeploymentName)
      || (&& st.sourceDeploymentName == TrussName(p.c)
          && (modelID != "" && st.pushStatus.PushDone? ==>
                ReconcileTruss(p.c, Start(st), modelID) == Go(Start(st), TrussName(p.c)))
          && (st.pushStatus.PushFailed? && st.pushNextRetryTime.Some?
              && p.c.replies.now < st.pushNextRetryTime.value ==>
                forall call :: call in p.Trail().calls ==> !call.Push?))
  {
    hide Reconcile, VersionOk, Prompt, FindsNoSlot, PushOrWait;
    RunKeepsInvariant(ws, es, i);
    NamesAreAccountedFor(ws, es, i);
    var st := p.read.status;
    assert PassOk(ws[i].history, ws[i].named, p);
    var k :| 0 <= k < |ws[i].passes| && Wrote(ws[i].passes[k], st.trussConfigHash, st.sourceDeploymentName);
    if Computes(ws[i].passes[k], st.trussConfigHash, st.sourceDeploymentName) {
      NoPushWhileWaiting(p.c, st, p.read.finalizer);
    }
  }

  lemma NoPushWhileWaiting(c: Context, st: Status, finalizer: bool)
    ensures Reads(c) && BackingOff(st, TrussName(c), c.replies.now) ==>
      forall call :: call in Reconcile(c, st, finalizer).trail.calls ==> !call.Push?
  {
    hide Reconcile, TrussName;
    forall call | call in Reconcile(c, st, finalizer).trail.calls && call.Push?
      ensures Announces(c, st, finalizer)
    {
      PushIsAnnounced(c, st, finalizer, call.name, call.createsModel);
    }
  }
}
