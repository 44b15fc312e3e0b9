/** A run from the creation of a resource in which a transition time moves without a flip: a pass
    whose deletion fails loses its first write, and the second one is accepted. */
module StatusExamples {
  import opened Types
  import opened Baseten
  import opened Model
  import opened StatusUpdates
  import opened Steps
  import opened PassStatus
  import opened Runs

  const SPEC := Spec("model", "dep", None, EnvironmentConfig("prod", None, None, None), None, ReconcileMode, false,
                     Delete)

  /** The model is found, and every other call fails. */
  function At(now: Time, deleting: bool): Context {
    Context(SPEC, 1, deleting, (tc: TrussConfig, script) => tc.content,
      Replies(now, RetryTimes(now, now, now, now), 0, MetaWritten, true, true, true,
              Ok("m"), None, true, Failure, true, Failure, Failure, Failure,
              Failure, Failure, Failure, Failure, Failure, Failure, Failure, Failure, Failure, Failure, Sweep([], [])),
      id => false)
  }

  const CREATED := Resource(BLANK_STATUS, SPEC, false, false)
  const MARKED := CREATED.(finalizer := true)

  /** What the second pass reports, and what is stored of it. */
  function Report(): Status {
    Updated(BLANK_STATUS, Update(Failed, Say("failed to get environment"), "m"), 1, 10 * SECOND)
  }

  function Noted(): Resource { MARKED.(status := Persist(Report())) }

  function Going(): Resource { MARKED.(status := Persist(Persist(Report())), deleting := true) }

  function Marking(): Pass { Pass(At(0, false), CREATED, 0, 0, None) }

  function Reporting(sent: nat): Pass {
    Pass(At(10 * SECOND, false), MARKED, 1 + sent, sent, if sent == 0 then None else Some(0))
  }

  function Removing(): Pass { Pass(At(20 * SECOND, true), Going(), 3, 0, None) }

  function Stage(history: seq<Resource>, passes: seq<Pass>): World {
    World(history, passes, 0, 0, 0, if passes == [] then {} else {"m"})
  }

  function After(i: nat): World
    requires i <= 6
  {
    var found := [CREATED, MARKED];
    match i
    case 0 => Stage([CREATED], [])
    case 1 => Stage([CREATED], [Marking()])
    case 2 => Stage(found, [Marking()])
    case 3 => Stage(found, [Marking(), Reporting(0)])
    case 4 => Stage(found + [Noted()], [Marking(), Reporting(1)])
    case 5 => Stage(found + [Noted(), Going()], [Marking(), Reporting(1)])
    case 6 => Stage(found + [Noted(), Going()], [Marking(), Reporting(1), Removing()])
  }

  /** Two passes and the user's deletion, then the pass that loses its first write. */
  const EVENTS := [
    BeginPass(At(0, false), 0), SendFinalizer(0, true),
    BeginPass(At(10 * SECOND, false), 1), SendWrite(1, true), Edit(SPEC, true),
    BeginPass(At(20 * SECOND, true), 3), SendWrite(2, false), SendWrite(2, true)]

  lemma MarkingWritesNothing()
    ensures Marking().Trail().writes == [] && Marking().Outcome().finalizer
  {
  }

  lemma ReportingWritesOnce()
    ensures forall sent :: Reporting(sent).Trail().writes == [Report()] && Reporting(sent).Trail().record.None?
  {
    hide Skipped, Updated;
    forall sent ensures Reporting(sent).Trail().writes == [Report()] && Reporting(sent).Trail().record.None? {
      FirstResolutionIsWritten(BLANK_STATUS, Update(Failed, Say("failed to get environment"), "m"), 1, 10 * SECOND);
    }
  }

  lemma ReportIsFailure()
    ensures var st := Going().status;
      && Consistent(st) && st.modelID == "m" && st.firstFailureTime.None? && st.deploymentStatus == Failed
      && Shows(st, false)
      && Get(st.conditions, Progressing).value.transition == 10 * SECOND
  {
    assert Get(BLANK_STATUS.conditions, Progressing).None?;
    hide Get, Conditions, Seconds;
    UpdateIsConsistent(BLANK_STATUS, Update(Failed, Say("failed to get environment"), "m"), 1, 10 * SECOND);
    ConditionsReport(Report());
  }

  lemma RemovingFlipsTwice()
    ensures var t := Removing().Trail();
      && |t.writes| == 2 && Shows(t.writes[0], true) && Shows(t.writes[1], false)
      && Get(t.writes[1].conditions, Progressing).value.transition == 20 * SECOND
  {
    ReportIsFailure();
    hide Reconcile, Report, Consistent, Get;
    FailedDeletionFlipsTwice(Removing().c, Going().status);
  }

  ghost predicate Follows(i: nat) requires i < 6 {
    Enabled(After(i), EVENTS[i]) && After(i + 1) == Next(After(i), EVENTS[i])
  }

  lemma MarkingFollows(i: nat)
    requires i < 2
    ensures Follows(i)
  {
    MarkingWritesNothing();
    hide Reconcile, Report;
  }

  lemma ReportingFollows(i: nat)
    requires 2 <= i < 4
    ensures Follows(i)
  {
    ReportingWritesOnce();
    hide Reconcile, Report, Seconds;
  }

  lemma RemovingFollows(i: nat)
    requires 4 <= i < 6
    ensures Follows(i)
  {
    ReportIsFailure();
    hide Reconcile, Report, Get, Consistent, Seconds;
  }

  /** The loss of one write: Progressing is stored as false before and after, and moves from the
      tenth second to the twentieth. */
  lemma LostWriteMovesTransition() returns (ws: seq<World>)
    ensures Run(ws, EVENTS) && ws[7].history != [] && ws[8].history != []
    ensures var a, b := ws[7].Latest().status, ws[8].Latest().status;
      && Shows(a, false) && Get(a.conditions, Progressing).value.transition == 10 * SECOND
      && Shows(b, false) && Get(b.conditions, Progressing).value.transition == 20 * SECOND
  {
    hide Reconcile, Report, Get;
    forall i | 0 <= i < 6 ensures Follows(i) {
      if i < 2 { MarkingFollows(i); } else if i < 4 { ReportingFollows(i); } else { RemovingFollows(i); }
    }
    ReportIsFailure();
    RemovingFlipsTwice();
    var w7 := Next(After(6), EVENTS[6]);
    var w8 := Next(w7, EVENTS[7]);
    ws := seq(7, i requires 0 <= i < 7 => After(i)) + [w7, w8];
    forall i | 0 <= i < |EVENTS| ensures Enabled(ws[i], EVENTS[i]) && ws[i + 1] == Next(ws[i], EVENTS[i]) {
      if i < 6 { assert Follows(i); }
    }
  }
}
