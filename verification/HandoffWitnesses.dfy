/**
 A concrete run in which an environment runs out of time while pending. It shows that the
 condition of the single-path theorem is needed: one IUT is released by its environment and by its
 own controller.
 */
module HandoffWitnesses {
  import opened Conditions
  import opened Handoff
  import opened HandoffTheorems
  import Jobs

  const THREE_NAMES := Providers("i", "l", "x")
  const THE_IUT := Key(Iut, "i")
  const THE_LOG_AREA := Key(LogArea, "l")
  const THE_SPACE := Key(ExecutionSpace, "x")

  // Versions of a provider under its own controller.
  const NEW := Object(false, {}, [OwnerRef(RequestOwner, "r", false)], None, false)
  const WAITING := NEW.(active := Some(Condition(False, Pending, "Waiting for environment")))
  const MANAGED := WAITING.(finalizers := {ProviderFinalizer})

  // Versions of the environment.
  const FRESH := Object(false, {}, [], None, false)
  const INITIAL := FRESH.(active := Some(Condition(False, Pending, "Waiting for environment to become ready")))
  const LATE := INITIAL.(active := Some(Condition(False, DeadlineExceeded, "late")))
  const LATE_GUARDED := LATE.(finalizers := {ReleaseFinalizer})

  function Scene(iut: Life, environment: EnvironmentLife, jobs: seq<ReleaseJob>): World {
    World(map[THE_IUT := iut, THE_LOG_AREA := [NEW], THE_SPACE := [NEW]], map["e" := environment], jobs)
  }

  function Environment(life: Life, pass: Option<nat>): EnvironmentLife { EnvironmentLife(THREE_NAMES, life, pass) }

  const SET_UP: seq<Step> :=
    [CreateResource(THE_IUT, "r"), CreateResource(THE_LOG_AREA, "r"), CreateResource(THE_SPACE, "r"), CreateEnvironment("e", THREE_NAMES)]

  lemma {:induction false} SetUpScene()
    ensures Run(SET_UP) == Scene([NEW], Environment([FRESH], None), [])
  {
    var s0: seq<Step> := [];
    RunSnoc(s0, SET_UP[0]);
    RunSnoc(SET_UP[..1], SET_UP[1]);
    RunSnoc(SET_UP[..2], SET_UP[2]);
    RunSnoc(SET_UP[..3], SET_UP[3]);
    assert s0 + [SET_UP[0]] == SET_UP[..1];
    assert SET_UP[..1] + [SET_UP[1]] == SET_UP[..2];
    assert SET_UP[..2] + [SET_UP[2]] == SET_UP[..3];
    assert SET_UP[..3] + [SET_UP[3]] == SET_UP;
    assert Run(SET_UP[..1]).resources == map[THE_IUT := [NEW]];
    assert Run(SET_UP[..2]).resources == map[THE_IUT := [NEW], THE_LOG_AREA := [NEW]];
  }

  /** A write of the IUT's own controller on the newest version. */
  lemma {:induction false} IutWritten(l: Life, e: EnvironmentLife, jobs: seq<ReleaseJob>, o: Object)
    requires Alive(l) && (Last(l).deleting ==> o.finalizers <= Last(l).finalizers)
    requires ResourceDecision(Iut, Last(l), Some(Jobs.NoJobs), QUIET) == Put(o)
    ensures Apply(Scene(l, e, jobs), ResourceStep(THE_IUT, |l| - 1, [], QUIET)) == Scene(l + [o], e, jobs)
  {
    assert Announced([]) == Some(Jobs.NoJobs);
    assert Enabled(Scene(l, e, jobs), ResourceStep(THE_IUT, |l| - 1, [], QUIET));
    assert Scene(l, e, jobs).resources[THE_IUT := l + [o]] == Scene(l + [o], e, jobs).resources;
  }

  /** A write of the environment controller on the newest version. */
  lemma {:induction false} EnvironmentWritten(iut: Life, l: Life, jobs: seq<ReleaseJob>, o: Object)
    requires Alive(l) && (Last(l).deleting ==> o.finalizers <= Last(l).finalizers)
    requires EnvironmentDecision(Last(l), Some(Jobs.NoJobs), QUIET) == Put(o)
    ensures Apply(Scene(iut, Environment(l, None), jobs), EnvironmentStep("e", |l| - 1, [], QUIET))
         == Scene(iut, Environment(l + [o], HeldAfter(l, |l| - 1, o)), jobs)
  {
    assert Announced([]) == Some(Jobs.NoJobs);
    var w := Scene(iut, Environment(l, None), jobs);
    assert Enabled(w, EnvironmentStep("e", |l| - 1, [], QUIET));
    assert w.environments["e" := Environment(l + [o], HeldAfter(l, |l| - 1, o))]
        == Scene(iut, Environment(l + [o], HeldAfter(l, |l| - 1, o)), jobs).environments;
  }

  lemma {:induction false} NewIsUnowned()
    ensures !OwnedByEnvironment(NEW) && !HasController(NEW)
  {
    assert NEW.owners[0].kind == RequestOwner;
  }

  // ---------------------------------------------------------------- the deadline fires too early

  const MANAGED_IUT: Life := [NEW] + [WAITING] + [MANAGED]
  const LATE_LIFE: Life := [FRESH] + [INITIAL] + [LATE] + [LATE_GUARDED]
  const ENVIRONMENT_JOB := ReleaseJob(OfEnvironment("e"), KeysOf(THREE_NAMES), Jobs.ActiveJob)

  /** The IUT comes under its own controller. */
  const NOTICED: seq<Step> := SET_UP + [ResourceStep(THE_IUT, 0, [], QUIET)]
  const ADOPTED: seq<Step> := NOTICED + [ResourceStep(THE_IUT, 1, [], QUIET)]

  lemma {:induction false} NoticedScene()
    ensures Run(NOTICED) == Scene([NEW] + [WAITING], Environment([FRESH], None), [])
  {
    SetUpScene();
    NewIsUnowned();
    RunSnoc(SET_UP, ResourceStep(THE_IUT, 0, [], QUIET));
    IutWritten([NEW], Environment([FRESH], None), [], WAITING);
  }

  lemma {:induction false} AdoptedScene()
    ensures Run(ADOPTED) == Scene(MANAGED_IUT, Environment([FRESH], None), [])
  {
    NoticedScene();
    NewIsUnowned();
    assert !OwnedByEnvironment(WAITING) by { assert WAITING.owners == NEW.owners; }
    RunSnoc(NOTICED, ResourceStep(THE_IUT, 1, [], QUIET));
    IutWritten([NEW] + [WAITING], Environment([FRESH], None), [], MANAGED);
  }

  /** The environment runs out of time in the very pass that initialises it. */
  const OVERDUE: seq<Step> := ADOPTED + [EnvironmentStep("e", 0, [], QUIET)] + [Expire("e", 1, "late")]

  lemma {:induction false} OverdueScene()
    ensures Run(OVERDUE) == Scene(MANAGED_IUT, Environment([FRESH] + [INITIAL] + [LATE], None), [])
  {
    AdoptedScene();
    RunSnoc(ADOPTED, EnvironmentStep("e", 0, [], QUIET));
    RunSnoc(ADOPTED + [EnvironmentStep("e", 0, [], QUIET)], Expire("e", 1, "late"));
    EnvironmentWritten(MANAGED_IUT, [FRESH], [], INITIAL);
    var w := Scene(MANAGED_IUT, Environment([FRESH] + [INITIAL], Some(1)), []);
    assert Enabled(w, Expire("e", 1, "late"));
    assert w.environments["e" := Environment([FRESH] + [INITIAL] + [LATE], None)]
        == Scene(MANAGED_IUT, Environment([FRESH] + [INITIAL] + [LATE], None), []).environments;
  }

  /** Past its deadline it gets its finalizer. */
  const STUCK: seq<Step> := OVERDUE + [EnvironmentStep("e", 2, [], QUIET)]

  lemma {:induction false} StuckScene()
    ensures Run(STUCK) == Scene(MANAGED_IUT, Environment(LATE_LIFE, None), [])
  {
    OverdueScene();
    RunSnoc(OVERDUE, EnvironmentStep("e", 2, [], QUIET));
    EnvironmentWritten(MANAGED_IUT, [FRESH] + [INITIAL] + [LATE], [], LATE_GUARDED);
  }

  /** It is deleted. */
  const DYING: seq<Step> := STUCK + [DeleteEnvironment("e")]

  const DYING_LIFE: Life := LATE_LIFE + [LATE_GUARDED.(deleting := true)]

  lemma {:induction false} DyingScene()
    ensures Run(DYING) == Scene(MANAGED_IUT, Environment(DYING_LIFE, None), [])
  {
    StuckScene();
    RunSnoc(STUCK, DeleteEnvironment("e"));
    var w := Scene(MANAGED_IUT, Environment(LATE_LIFE, None), []);
    assert w.environments["e" := Environment(DYING_LIFE, None)]
        == Scene(MANAGED_IUT, Environment(DYING_LIFE, None), []).environments;
  }

  /** Its release job covers providers it never took. */
  const COVERING: seq<Step> := DYING + [CreateReleaseJob("e", 4, [], Seen(2, 0, 0))]

  lemma {:induction false} CoveringScene()
    ensures Run(COVERING) == Scene(MANAGED_IUT, Environment(DYING_LIFE, None), [ENVIRONMENT_JOB])
  {
    DyingScene();
    RunSnoc(DYING, CreateReleaseJob("e", 4, [], Seen(2, 0, 0)));
    assert Announced([]) == Some(Jobs.NoJobs);
    var w := Scene(MANAGED_IUT, Environment(DYING_LIFE, None), []);
    assert Holds(w, "e", 4) && Releasing(DYING_LIFE[4]) && DYING_LIFE[4].deleting;
    assert forall kind :: Sees(w, THREE_NAMES, Seen(2, 0, 0), kind) by {
      assert ReadableKey(w, THE_IUT, 2) && ReadableKey(w, THE_LOG_AREA, 0) && ReadableKey(w, THE_SPACE, 0);
    }
    assert [] + [ENVIRONMENT_JOB] == [ENVIRONMENT_JOB];
  }

  /** The IUT is deleted as well, and its own controller, still in charge, creates a second
      release job. */
  const RELEASED_TWICE: seq<Step> := COVERING + [DeleteResource(THE_IUT)] + [ResourceStep(THE_IUT, 3, [], QUIET)]

  const DELETED_IUT: Life := MANAGED_IUT + [MANAGED.(deleting := true)]
  const OWN_JOB := ReleaseJob(OfResource(THE_IUT), {THE_IUT}, Jobs.ActiveJob)

  lemma {:induction false} IutDeleted(e: EnvironmentLife, jobs: seq<ReleaseJob>)
    ensures Apply(Scene(MANAGED_IUT, e, jobs), DeleteResource(THE_IUT)) == Scene(DELETED_IUT, e, jobs)
  {
    assert Scene(MANAGED_IUT, e, jobs).resources[THE_IUT := DELETED_IUT] == Scene(DELETED_IUT, e, jobs).resources;
  }

  lemma {:induction false} ReleasedTwiceScene()
    ensures Run(RELEASED_TWICE) == Scene(DELETED_IUT, Environment(DYING_LIFE, None), [ENVIRONMENT_JOB] + [OWN_JOB])
  {
    CoveringScene();
    RunSnoc(COVERING, DeleteResource(THE_IUT));
    RunSnoc(COVERING + [DeleteResource(THE_IUT)], ResourceStep(THE_IUT, 3, [], QUIET));
    IutDeleted(Environment(DYING_LIFE, None), [ENVIRONMENT_JOB]);
    IutStartsJob(DELETED_IUT, Environment(DYING_LIFE, None), [ENVIRONMENT_JOB]);
  }

  lemma {:induction false} IutStartsJob(l: Life, e: EnvironmentLife, jobs: seq<ReleaseJob>)
    requires Alive(l) && Last(l) == MANAGED.(deleting := true)
    ensures Apply(Scene(l, e, jobs), ResourceStep(THE_IUT, |l| - 1, [], QUIET)) == Scene(l, e, jobs + [OWN_JOB])
  {
    NewIsUnowned();
    assert !OwnedByEnvironment(Last(l)) by { assert Last(l).owners == NEW.owners; }
    assert Announced([]) == Some(Jobs.NoJobs);
    assert Enabled(Scene(l, e, jobs), ResourceStep(THE_IUT, |l| - 1, [], QUIET));
  }

  /** The single-path promise fails when an environment expires while pending: both paths
      release this IUT. */
  lemma {:induction false} PendingExpiryReleasesTwice()
    ensures var w := Run(RELEASED_TWICE);
            ReleasedByItself(w, THE_IUT) && ReleasedByEnvironment(w, THE_IUT)
  {
    ReleasedTwiceScene();
    var w := Run(RELEASED_TWICE);
    assert w.jobs[0] == ENVIRONMENT_JOB && w.jobs[1] == OWN_JOB;
    assert THE_IUT in KeysOf(THREE_NAMES);
  }
}
