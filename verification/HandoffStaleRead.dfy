/**
 A run in which an environment completes on reads of its providers from before it took them: the
 release finalizer stays on them although the environment has gone.
 */
module HandoffStaleRead {
  import opened Conditions
  import opened Handoff
  import opened HandoffInvariant
  import opened HandoffOwnership
  import opened HandoffTheorems
  import opened HandoffWitnesses
  import Jobs

  const GUARDED := INITIAL.(finalizers := {ReleaseFinalizer})
  const IN_USE := Activated(GUARDED)
  const LEAVING := IN_USE.(deleting := true)
  const RELEASED := Finished(LEAVING, QUIET)
  const REMOVED := RELEASED.(finalizers := {})

  const OWNED := Taken(NEW, "e")
  const DOOMED := OWNED.(deleting := true)

  const BEFORE: Life := [FRESH] + [INITIAL] + [GUARDED]
  const DURING: Life := BEFORE + [IN_USE] + [LEAVING]
  const OWNED_LIFE: Life := [NEW] + [OWNED]
  const DOOMED_LIFE: Life := OWNED_LIFE + [DOOMED]

  /** The store when the three providers have these histories. */
  function Stage(i: Life, l: Life, x: Life, e: Life, pass: Option<nat>, jobs: seq<ReleaseJob>): World {
    World(map[THE_IUT := i, THE_LOG_AREA := l, THE_SPACE := x], map["e" := Environment(e, pass)], jobs)
  }

  // Single steps.

  lemma {:induction false} EnvironmentGrows(i: Life, l: Life, x: Life, e: Life, jobs: seq<ReleaseJob>, o: Object, pass: Option<nat>, new_: Option<nat>)
    ensures Stage(i, l, x, e, pass, jobs).(environments := map["e" := Environment(e + [o], new_)])
         == Stage(i, l, x, e + [o], new_, jobs)
    ensures Stage(i, l, x, e, pass, jobs).environments["e" := Environment(e + [o], new_)]
         == Stage(i, l, x, e + [o], new_, jobs).environments
    ensures Stage(i, l, x, e, pass, jobs).environments["e" := Environment(e, new_)]
         == Stage(i, l, x, e, new_, jobs).environments
  {
  }

  lemma {:induction false} OwnWrite(steps: seq<Step>, i: Life, l: Life, x: Life, e: Life, jobs: seq<ReleaseJob>, o: Object) returns (more: seq<Step>)
    requires Run(steps) == Stage(i, l, x, e, None, jobs) && Alive(e)
    requires Last(e).deleting ==> o.finalizers <= Last(e).finalizers
    requires EnvironmentDecision(Last(e), Some(Jobs.NoJobs), QUIET) == Put(o)
    ensures steps <= more && Run(more) == Stage(i, l, x, e + [o], HeldAfter(e, |e| - 1, o), jobs)
  {
    assert Announced([]) == Some(Jobs.NoJobs);
    more := Then(steps, EnvironmentStep("e", |e| - 1, [], QUIET));
    assert Enabled(Run(steps), EnvironmentStep("e", |e| - 1, [], QUIET));
    EnvironmentGrows(i, l, x, e, jobs, o, None, HeldAfter(e, |e| - 1, o));
  }

  lemma {:induction false} OwnStep(steps: seq<Step>, i: Life, l: Life, x: Life, e: Life, jobs: seq<ReleaseJob>, o: Object) returns (more: seq<Step>)
    requires Run(steps) == Stage(i, l, x, e, None, jobs) && Alive(e)
    requires Last(e).deleting ==> o.finalizers <= Last(e).finalizers
    requires EnvironmentDecision(Last(e), Some(Jobs.NoJobs), QUIET) == Put(o)
    ensures steps <= more && Run(more) == Stage(i, l, x, e + [o], None, jobs)
  {
    var first := OwnWrite(steps, i, l, x, e, jobs, o);
    more := Then(first, EndPass("e"));
    EnvironmentGrows(i, l, x, e + [o], jobs, o, HeldAfter(e, |e| - 1, o), None);
  }

  lemma {:induction false} ProviderGrows(i: Life, l: Life, x: Life, e: Life, jobs: seq<ReleaseJob>, new_: Life)
    ensures Stage(i, l, x, e, None, jobs).resources[THE_IUT := new_] == Stage(new_, l, x, e, None, jobs).resources
    ensures Stage(i, l, x, e, None, jobs).resources[THE_LOG_AREA := new_] == Stage(i, new_, x, e, None, jobs).resources
    ensures Stage(i, l, x, e, None, jobs).resources[THE_SPACE := new_] == Stage(i, l, new_, e, None, jobs).resources
  {
  }

  lemma {:induction false} TakesOne(steps: seq<Step>, kind: Kind) returns (more: seq<Step>)
    requires var w := Run(steps);
             && w.environments == map["e" := Environment(BEFORE, None)]
             && KeyOf(THREE_NAMES, kind) in w.resources && w.resources[KeyOf(THREE_NAMES, kind)] == [NEW]
    ensures Run(more) == PutResource(Run(steps), KeyOf(THREE_NAMES, kind), OWNED_LIFE)
  {
    NewIsUnowned();
    assert Holds(Run(steps), "e", 2) && Taking(GUARDED) && BEFORE[2] == GUARDED;
    more := Then(steps, TakeOwnership("e", 2, kind, 0));
    assert Enabled(Run(steps), TakeOwnership("e", 2, kind, 0));
  }

  /** Ownership of one provider after the other. */
  lemma {:induction false} TakesAll(steps: seq<Step>) returns (more: seq<Step>)
    requires Run(steps) == Stage([NEW], [NEW], [NEW], BEFORE, None, [])
    ensures Run(more) == Stage(OWNED_LIFE, OWNED_LIFE, OWNED_LIFE, BEFORE, None, [])
  {
    var iut := TakesOne(steps, Iut);
    ProviderGrows([NEW], [NEW], [NEW], BEFORE, [], OWNED_LIFE);
    var logArea := TakesOne(iut, LogArea);
    ProviderGrows(OWNED_LIFE, [NEW], [NEW], BEFORE, [], OWNED_LIFE);
    more := TakesOne(logArea, ExecutionSpace);
    ProviderGrows(OWNED_LIFE, OWNED_LIFE, [NEW], BEFORE, [], OWNED_LIFE);
  }

  lemma {:induction false} OwnedIsControlled()
    ensures HasController(OWNED)
  {
    assert OWNED.owners[1] == OwnerRef(EnvironmentOwner, "e", true);
  }

  const ALL_SECOND := Seen(1, 1, 1)

  lemma {:induction false} Activates(steps: seq<Step>) returns (more: seq<Step>)
    requires Run(steps) == Stage(OWNED_LIFE, OWNED_LIFE, OWNED_LIFE, BEFORE, None, [])
    ensures Run(more) == Stage(OWNED_LIFE, OWNED_LIFE, OWNED_LIFE, BEFORE + [IN_USE], None, [])
  {
    var w := Run(steps);
    OwnedIsControlled();
    assert forall kind :: SeesControlled(w, THREE_NAMES, ALL_SECOND, kind) by {
      assert SeesControlled(w, THREE_NAMES, ALL_SECOND, Iut) && SeesControlled(w, THREE_NAMES, ALL_SECOND, LogArea);
      assert SeesControlled(w, THREE_NAMES, ALL_SECOND, ExecutionSpace);
    }
    more := Then(steps, Activate("e", 2, ALL_SECOND));
    assert Enabled(w, Activate("e", 2, ALL_SECOND));
    EnvironmentGrows(OWNED_LIFE, OWNED_LIFE, OWNED_LIFE, BEFORE, [], IN_USE, None, None);
  }

  lemma {:induction false} IsDeleted(steps: seq<Step>) returns (more: seq<Step>)
    requires Run(steps) == Stage(OWNED_LIFE, OWNED_LIFE, OWNED_LIFE, BEFORE + [IN_USE], None, [])
    ensures Run(more) == Stage(OWNED_LIFE, OWNED_LIFE, OWNED_LIFE, DURING, None, [])
  {
    more := Then(steps, DeleteEnvironment("e"));
    EnvironmentGrows(OWNED_LIFE, OWNED_LIFE, OWNED_LIFE, BEFORE + [IN_USE], [], LEAVING, None, None);
  }

  const DONE_JOB := ENVIRONMENT_JOB.(class_ := Jobs.SuccessfulJob)

  lemma {:induction false} StartsReleaseJob(steps: seq<Step>) returns (more: seq<Step>)
    requires Run(steps) == Stage(OWNED_LIFE, OWNED_LIFE, OWNED_LIFE, DURING, None, [])
    ensures Run(more) == Stage(OWNED_LIFE, OWNED_LIFE, OWNED_LIFE, DURING, None, [ENVIRONMENT_JOB])
  {
    var w := Run(steps);
    assert Announced([]) == Some(Jobs.NoJobs);
    assert forall kind :: Sees(w, THREE_NAMES, Seen(0, 0, 0), kind) by {
      assert ReadableKey(w, THE_IUT, 0) && ReadableKey(w, THE_LOG_AREA, 0) && ReadableKey(w, THE_SPACE, 0);
    }
    more := Then(steps, CreateReleaseJob("e", 4, [], Seen(0, 0, 0)));
    assert Enabled(w, CreateReleaseJob("e", 4, [], Seen(0, 0, 0)));
    assert Run(more).jobs == [ENVIRONMENT_JOB];
  }

  lemma {:induction false} DeletesOne(steps: seq<Step>, key: Key) returns (more: seq<Step>)
    requires key in Run(steps).resources && Run(steps).resources[key] == OWNED_LIFE
    ensures Run(more) == PutResource(Run(steps), key, DOOMED_LIFE)
  {
    more := Then(steps, DeleteResource(key));
  }

  /** The release containers delete the three providers, and the job succeeds. */
  lemma {:induction false} DeletesAll(steps: seq<Step>) returns (more: seq<Step>)
    requires Run(steps) == Stage(OWNED_LIFE, OWNED_LIFE, OWNED_LIFE, DURING, None, [ENVIRONMENT_JOB])
    ensures Run(more) == Stage(DOOMED_LIFE, DOOMED_LIFE, DOOMED_LIFE, DURING, None, [ENVIRONMENT_JOB])
  {
    var iut := DeletesOne(steps, THE_IUT);
    ProviderGrows(OWNED_LIFE, OWNED_LIFE, OWNED_LIFE, DURING, [ENVIRONMENT_JOB], DOOMED_LIFE);
    var logArea := DeletesOne(iut, THE_LOG_AREA);
    ProviderGrows(DOOMED_LIFE, OWNED_LIFE, OWNED_LIFE, DURING, [ENVIRONMENT_JOB], DOOMED_LIFE);
    more := DeletesOne(logArea, THE_SPACE);
    ProviderGrows(DOOMED_LIFE, DOOMED_LIFE, OWNED_LIFE, DURING, [ENVIRONMENT_JOB], DOOMED_LIFE);
  }

  lemma {:induction false} ReleaseJobSucceeds(steps: seq<Step>) returns (more: seq<Step>)
    requires Run(steps) == Stage(DOOMED_LIFE, DOOMED_LIFE, DOOMED_LIFE, DURING, None, [ENVIRONMENT_JOB])
    ensures Run(more) == Stage(DOOMED_LIFE, DOOMED_LIFE, DOOMED_LIFE, DURING, None, [DONE_JOB])
  {
    assert AllDeleting(Run(steps), ENVIRONMENT_JOB.covers);
    more := Then(steps, FinishJob(0, true));
    assert [ENVIRONMENT_JOB][0 := DONE_JOB] == [DONE_JOB];
  }

  const DONE_VIEWS := [JobView(0, Jobs.SuccessfulJob)]

  lemma {:induction false} AnnouncesSuccess(w: World)
    requires w.jobs == [DONE_JOB]
    ensures Listed(w, OfEnvironment("e"), DONE_VIEWS) && Announced(DONE_VIEWS) == Some(Jobs.SuccessfulJobs)
  {
    var classes := seq(|DONE_VIEWS|, i requires 0 <= i < |DONE_VIEWS| => DONE_VIEWS[i].class_);
    assert classes == [] + [Jobs.SuccessfulJob];
    assert Jobs.OfClass([], Jobs.SuccessfulJob) == [] && Jobs.OfClass([], Jobs.FailedJob) == [];
  }

  const ALL_FIRST := Found(Some(0), Some(0), Some(0))

  /** The completing pass reads the providers as they were when they were created. */
  lemma {:induction false} Finishes(steps: seq<Step>) returns (more: seq<Step>)
    requires Run(steps) == Stage(DOOMED_LIFE, DOOMED_LIFE, DOOMED_LIFE, DURING, None, [DONE_JOB])
    ensures Run(more) == Stage(DOOMED_LIFE, DOOMED_LIFE, DOOMED_LIFE, DURING + [RELEASED], None, [DONE_JOB])
    ensures more == steps + [Complete("e", 4, DONE_VIEWS, QUIET, ALL_FIRST)] && Enabled(Run(steps), more[|steps|])
  {
    var w := Run(steps);
    AnnouncesSuccess(w);
    assert forall kind :: ReadsReleased(w, KeyOf(THREE_NAMES, kind), FoundAt(ALL_FIRST, kind)) by {
      assert ReadableKey(w, THE_IUT, 0) && ReadableKey(w, THE_LOG_AREA, 0) && ReadableKey(w, THE_SPACE, 0);
    }
    more := Then(steps, Complete("e", 4, DONE_VIEWS, QUIET, ALL_FIRST));
    assert Enabled(w, Complete("e", 4, DONE_VIEWS, QUIET, ALL_FIRST));
    EnvironmentGrows(DOOMED_LIFE, DOOMED_LIFE, DOOMED_LIFE, DURING, [DONE_JOB], RELEASED, None, None);
  }

  lemma {:induction false} UpToCompletion() returns (steps: seq<Step>)
    ensures Run(steps) == Stage(DOOMED_LIFE, DOOMED_LIFE, DOOMED_LIFE, DURING, None, [DONE_JOB])
  {
    SetUpScene();
    assert Run(SET_UP) == Stage([NEW], [NEW], [NEW], [FRESH], None, []);
    var initial := OwnStep(SET_UP, [NEW], [NEW], [NEW], [FRESH], [], INITIAL);
    var guarded := OwnStep(initial, [NEW], [NEW], [NEW], [FRESH] + [INITIAL], [], GUARDED);
    var taken := TakesAll(guarded);
    var active := Activates(taken);
    var leaving := IsDeleted(active);
    var started := StartsReleaseJob(leaving);
    var deleted := DeletesAll(started);
    steps := ReleaseJobSucceeds(deleted);
  }

  /** A completing pass on stale reads, after which the environment is gone and the release
      finalizer is still on the IUT. */
  lemma {:induction false} StaleReadLeavesFinalizer() returns (steps: seq<Step>, n: nat)
    ensures n < |steps| && CompletesAt(steps, n, "e")
    ensures "e" in Run(steps).environments && !Alive(Run(steps).environments["e"].life)
    ensures Finalized(Run(steps), THE_IUT)
  {
    var before := UpToCompletion();
    var completed := Finishes(before);
    n := |before|;
    steps := OwnStep(completed, DOOMED_LIFE, DOOMED_LIFE, DOOMED_LIFE, DURING + [RELEASED], [DONE_JOB], REMOVED);
    assert steps[..n] == before && steps[n] == completed[n];
  }
}
