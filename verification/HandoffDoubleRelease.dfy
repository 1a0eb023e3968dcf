/**
 The continuations that release a resource by both paths, from every state in which both paths
 are open; and with them the exact condition for a double release.
 */
module HandoffDoubleRelease {
  import opened Conditions
  import opened Handoff
  import opened HandoffInvariant
  import opened HandoffSteps
  import opened HandoffOwnership
  import opened HandoffTheorems
  import opened HandoffUnclaimed
  import opened HandoffExposure
  import Jobs

  // ---------------------------------------------------------------- one environment moves on

  /** The run goes on, and only this environment changes. */
  ghost predicate OnlyEnvironment(steps: seq<Step>, more: seq<Step>, name: string, e: EnvironmentLife) {
    && steps <= more && name in Run(steps).environments && e.providers == Run(steps).environments[name].providers
    && Run(more) == PutEnvironment(Run(steps), name, e)
  }

  lemma {:induction false} Chain(a: seq<Step>, b: seq<Step>, c: seq<Step>, name: string, e: EnvironmentLife, f: EnvironmentLife)
    requires OnlyEnvironment(a, b, name, e) && OnlyEnvironment(b, c, name, f)
    ensures OnlyEnvironment(a, c, name, f)
  {
  }

  lemma {:induction false} DropsPass(steps: seq<Step>, name: string) returns (more: seq<Step>)
    requires name in Run(steps).environments
    ensures OnlyEnvironment(steps, more, name, Run(steps).environments[name].(pass := None))
  {
    more := Then(steps, EndPass(name));
  }

  lemma {:induction false} Writes(steps: seq<Step>, name: string, o: Object) returns (more: seq<Step>)
    requires name in Run(steps).environments && Run(steps).environments[name].pass.None?
    requires var l := Run(steps).environments[name].life;
             !Last(l).deleting && EnvironmentDecision(Last(l), Some(Jobs.NoJobs), QUIET) == Put(o)
    ensures var e := Run(steps).environments[name];
            OnlyEnvironment(steps, more, name, e.(life := e.life + [o], pass := HeldAfter(e.life, |e.life| - 1, o)))
  {
    var l := Run(steps).environments[name].life;
    assert Announced([]) == Some(Jobs.NoJobs);
    assert Enabled(Run(steps), EnvironmentStep(name, |l| - 1, [], QUIET));
    more := Then(steps, EnvironmentStep(name, |l| - 1, [], QUIET));
  }

  lemma {:induction false} Fires(steps: seq<Step>, name: string) returns (more: seq<Step>)
    requires name in Run(steps).environments
    requires var e := Run(steps).environments[name];
             e.pass == Some(|e.life| - 1) && !Last(e.life).deleting && ReasonIs(Last(e.life).active, Pending)
    ensures var e := Run(steps).environments[name];
            OnlyEnvironment(steps, more, name, e.(life := e.life + [Expired(Last(e.life), "late")], pass := None))
  {
    var l := Run(steps).environments[name].life;
    assert Enabled(Run(steps), Expire(name, |l| - 1, "late"));
    more := Then(steps, Expire(name, |l| - 1, "late"));
  }

  lemma {:induction false} CompletedHasLeft(w: World, name: string)
    requires Inv(w) && name in w.environments && Last(w.environments[name].life).completed
    ensures Left(Last(w.environments[name].life)) && ReleasedBy(w, name)
  {
    var l := w.environments[name].life;
    assert EnvironmentOk(w, name) && l[|l| - 1].completed;
    var n :| 0 <= n < |w.jobs| && w.jobs[n].owner == OfEnvironment(name) && w.jobs[n].class_ == Jobs.SuccessfulJob;
    assert JobOk(w, n);
    EverLeftLast(l);
  }

  /** What the next pass writes on an environment that is not initialised. */
  function Initialised(o: Object): Object {
    if o.active.None? then o.(active := Some(Condition(False, Pending, "Waiting for environment to become ready")))
    else o.(finalizers := o.finalizers + {ReleaseFinalizer})
  }

  /** The next pass initialises the environment and holds it. */
  lemma {:induction false} BeginsPass(steps: seq<Step>, name: string) returns (more: seq<Step>)
    requires name in Run(steps).environments
    requires var o := Last(Run(steps).environments[name].life);
             && !o.deleting && !o.completed && !Left(o)
             && (o.active.None? || ReleaseFinalizer !in o.finalizers)
    ensures var e := Run(steps).environments[name];
            OnlyEnvironment(steps, more, name, e.(life := e.life + [Initialised(Last(e.life))], pass := Some(|e.life|)))
  {
    var e := Run(steps).environments[name];
    var first := DropsPass(steps, name);
    more := Writes(first, name, Initialised(Last(e.life)));
    Chain(steps, first, more, name, e.(pass := None),
          e.(life := e.life + [Initialised(Last(e.life))], pass := Some(|e.life|)));
  }

  lemma {:induction false} WindowFacts(steps: seq<Step>, name: string)
    requires name in Run(steps).environments && Initialising(Run(steps).environments[name])
    ensures var e := Run(steps).environments[name];
            && !Last(e.life).completed
            && (e.pass == Some(|e.life| - 1) ==> ReasonIs(Last(e.life).active, Pending))
  {
    RunKeeps(steps);
    assert EnvironmentOk(Run(steps), name);
    if Last(Run(steps).environments[name].life).completed { CompletedHasLeft(Run(steps), name); }
  }

  /** The deadline fires on an environment within its window. */
  lemma {:induction false} Overruns(steps: seq<Step>, name: string) returns (more: seq<Step>, e: EnvironmentLife)
    requires name in Run(steps).environments && Initialising(Run(steps).environments[name])
    ensures OnlyEnvironment(steps, more, name, e) && Left(Last(e.life)) && !Last(e.life).deleting
  {
    WindowFacts(steps, name);
    var e0 := Run(steps).environments[name];
    if e0.pass == Some(|e0.life| - 1) {
      more := Fires(steps, name);
      e := e0.(life := e0.life + [Expired(Last(e0.life), "late")], pass := None);
    } else {
      var first := BeginsPass(steps, name);
      var e1 := Run(first).environments[name];
      more := Fires(first, name);
      e := e1.(life := e1.life + [Expired(Last(e1.life), "late")], pass := None);
      Chain(steps, first, more, name, e1, e);
    }
  }

  /** An idle environment being deleted, past its initial condition: ready for its release job. */
  predicate ReadyToRelease(e: EnvironmentLife) {
    e.pass.None? && Last(e.life).deleting && !Gone(Last(e.life)) && Releasing(Last(e.life))
  }

  lemma {:induction false} GetsFinalizer(steps: seq<Step>, name: string) returns (more: seq<Step>, e: EnvironmentLife)
    requires name in Run(steps).environments
    requires var o := Last(Run(steps).environments[name].life); Left(o) && !o.deleting && !o.completed
    ensures OnlyEnvironment(steps, more, name, e) && e.pass.None?
    ensures Left(Last(e.life)) && !Last(e.life).deleting && !Last(e.life).completed && ReleaseFinalizer in Last(e.life).finalizers
  {
    var e0 := Run(steps).environments[name];
    more := DropsPass(steps, name);
    e := e0.(pass := None);
    if ReleaseFinalizer !in Last(e0.life).finalizers {
      var o := Last(e0.life).(finalizers := Last(e0.life).finalizers + {ReleaseFinalizer});
      var first := more;
      more := Writes(first, name, o);
      e := e.(life := e0.life + [o]);
      Chain(steps, first, more, name, e0.(pass := None), e);
    }
  }

  lemma {:induction false} ComesToRelease(steps: seq<Step>, name: string) returns (more: seq<Step>, e: EnvironmentLife)
    requires name in Run(steps).environments && Alive(Run(steps).environments[name].life)
    requires Left(Last(Run(steps).environments[name].life)) && !Last(Run(steps).environments[name].life).completed
    ensures OnlyEnvironment(steps, more, name, e) && ReadyToRelease(e)
  {
    var e0 := Run(steps).environments[name];
    if Last(e0.life).deleting {
      more := DropsPass(steps, name);
      e := e0.(pass := None);
    } else {
      var first, e1 := GetsFinalizer(steps, name);
      more := Then(first, DeleteEnvironment(name));
      e := e1.(life := e1.life + [Last(e1.life).(deleting := true)]);
      assert OnlyEnvironment(first, more, name, e);
      Chain(steps, first, more, name, e1, e);
    }
  }

  // ---------------------------------------------------------------- and releases its providers

  /** The run goes on, and at most this resource is new. */
  lemma {:induction false} Provides(steps: seq<Step>, key: Key) returns (more: seq<Step>)
    ensures steps <= more && key in Run(more).resources
    ensures Run(more) == Run(steps).(resources := Run(more).resources)
    ensures forall k :: k in Run(steps).resources ==> k in Run(more).resources && Run(more).resources[k] == Run(steps).resources[k]
  {
    more := Then(steps, CreateResource(key, "request"));
  }

  lemma {:induction false} ProvidesAll(steps: seq<Step>, p: Providers) returns (more: seq<Step>)
    ensures steps <= more && forall kind :: KeyOf(p, kind) in Run(more).resources
    ensures Run(more) == Run(steps).(resources := Run(more).resources)
    ensures forall k :: k in Run(steps).resources ==> k in Run(more).resources && Run(more).resources[k] == Run(steps).resources[k]
  {
    var iut := Provides(steps, KeyOf(p, Iut));
    var logArea := Provides(iut, KeyOf(p, LogArea));
    more := Provides(logArea, KeyOf(p, ExecutionSpace));
    forall kind ensures KeyOf(p, kind) in Run(more).resources {
      match kind case Iut => case LogArea => case ExecutionSpace =>
    }
  }

  lemma {:induction false} StartsJob(steps: seq<Step>, name: string) returns (more: seq<Step>)
    requires name in Run(steps).environments && ReadyToRelease(Run(steps).environments[name])
    requires forall kind :: KeyOf(Run(steps).environments[name].providers, kind) in Run(steps).resources
    ensures steps <= more
    ensures Run(more) == Run(steps).(jobs := Run(steps).jobs
                           + [ReleaseJob(OfEnvironment(name), KeysOf(Run(steps).environments[name].providers), Jobs.ActiveJob)])
  {
    var w := Run(steps);
    var e := w.environments[name];
    RunKeeps(steps);
    assert Announced([]) == Some(Jobs.NoJobs);
    forall kind ensures Sees(w, e.providers, Seen(0, 0, 0), kind) { assert ResourceOk(w, KeyOf(e.providers, kind)); }
    var step := CreateReleaseJob(name, |e.life| - 1, [], Seen(0, 0, 0));
    assert Holds(w, name, |e.life| - 1) && Enabled(w, step);
    more := Then(steps, step);
  }

  ghost predicate SameProviders(w: World, w': World) {
    && w.environments.Keys == w'.environments.Keys
    && forall name :: name in w.environments ==> w.environments[name].providers == w'.environments[name].providers
  }

  lemma {:induction false} DistinctKept(w: World, w': World)
    requires SameProviders(w, w') && Distinct(w)
    ensures Distinct(w')
  {
  }

  lemma {:induction false} ReleasesFrom(steps: seq<Step>, key: Key, name: string) returns (more: seq<Step>)
    requires key in Run(steps).resources && Names(Run(steps), name, key) && ReadyToRelease(Run(steps).environments[name])
    ensures steps <= more && SameProviders(Run(steps), Run(more)) && ReleasedByEnvironment(Run(more), key)
    ensures key in Run(more).resources && Run(more).resources[key] == Run(steps).resources[key]
  {
    var first := ProvidesAll(steps, Run(steps).environments[name].providers);
    more := StartsJob(first, name);
    assert Run(more).jobs[|Run(first).jobs|].owner == OfEnvironment(name);
  }

  /** An environment in its window can be made to miss its deadline. */
  lemma {:induction false} LeavesPending(steps: seq<Step>, key: Key, name: string) returns (more: seq<Step>, e: EnvironmentLife)
    requires EnvironmentPathOpen(Run(steps), key, name) && !ReleasedByEnvironment(Run(steps), key)
    ensures OnlyEnvironment(steps, more, name, e) && Left(Last(e.life)) && Alive(e.life)
  {
    var e0 := Run(steps).environments[name];
    if HasExpired(Run(steps), name) {
      RunKeeps(steps);
      assert EnvironmentOk(Run(steps), name);
      ExpiredHasLeft(e0.life);
      more, e := steps, e0;
      assert PutEnvironment(Run(steps), name, e0) == Run(steps);
    } else {
      more, e := Overruns(steps, name);
    }
  }

  lemma {:induction false} ExpiredHasLeft(l: Life)
    requires EnvironmentHistory(l) && ExpiredPending(l)
    ensures Left(Last(l))
  {
    var i :| 0 <= i < |l| - 1 && PendingExpiry(l, i);
    assert Left(l[i + 1]);
    EverLeftLast(l);
  }

  lemma {:induction false} CompletedCovers(w: World, key: Key, name: string)
    requires Inv(w) && Names(w, name, key) && ReleasedBy(w, name)
    ensures ReleasedByEnvironment(w, key)
  {
    var n :| 0 <= n < |w.jobs| && w.jobs[n].owner == OfEnvironment(name) && w.jobs[n].class_ == Jobs.SuccessfulJob;
    assert JobOk(w, n);
  }

  lemma {:induction false} NotCompleted(steps: seq<Step>, key: Key, name: string)
    requires Names(Run(steps), name, key) && !ReleasedByEnvironment(Run(steps), key)
    ensures !Last(Run(steps).environments[name].life).completed
  {
    RunKeeps(steps);
    if Last(Run(steps).environments[name].life).completed {
      CompletedHasLeft(Run(steps), name);
      CompletedCovers(Run(steps), key, name);
    }
  }

  /** As long as its path is open, the environment can release a resource it never took. */
  lemma {:induction false} EnvironmentReleases(steps: seq<Step>, key: Key, name: string) returns (more: seq<Step>)
    requires key in Run(steps).resources && EnvironmentPathOpen(Run(steps), key, name)
    ensures steps <= more && SameProviders(Run(steps), Run(more)) && ReleasedByEnvironment(Run(more), key)
    ensures key in Run(more).resources && Run(more).resources[key] == Run(steps).resources[key]
  {
    if ReleasedByEnvironment(Run(steps), key) {
      more := steps;
    } else {
      var first, e := LeavesPending(steps, key, name);
      NotCompleted(first, key, name);
      var second, f := ComesToRelease(first, name);
      Chain(steps, first, second, name, e, f);
      more := ReleasesFrom(second, key, name);
    }
  }

  // ---------------------------------------------------------------- and the own controller does

  /** One pass of the own controller on version `at`, seeing no job. */
  lemma {:induction false} OwnPass(steps: seq<Step>, key: Key, at: nat) returns (more: seq<Step>)
    requires ReadableKey(Run(steps), key, at)
    ensures steps <= more
    ensures match ResourceDecision(key.kind, Run(steps).resources[key][at], Some(Jobs.NoJobs), QUIET)
            case Idle => Run(more) == Run(steps)
            case Put(o) => Run(more) == UpdateResource(Run(steps), key, at, o)
            case StartJob => Run(more) == Run(steps).(jobs := Run(steps).jobs + [ReleaseJob(OfResource(key), {key}, Jobs.ActiveJob)])
  {
    assert Announced([]) == Some(Jobs.NoJobs);
    assert Enabled(Run(steps), ResourceStep(key, at, [], QUIET));
    more := Then(steps, ResourceStep(key, at, [], QUIET));
  }

  /** A resource in the store under its own controller. */
  predicate Tended(o: Object) { !o.deleting && !OwnedByEnvironment(o) && !o.completed && !ReasonIs(o.active, Failed) }

  lemma {:induction false} TendedPass(steps: seq<Step>, key: Key) returns (more: seq<Step>)
    requires key in Run(steps).resources && Tended(Last(Run(steps).resources[key]))
    ensures steps <= more && key in Run(more).resources && Tended(Last(Run(more).resources[key]))
    ensures Run(more).environments == Run(steps).environments
    ensures Last(Run(more).resources[key]).active.Some?
    ensures Last(Run(steps).resources[key]).active.Some? ==> ProviderFinalizer in Last(Run(more).resources[key]).finalizers
  {
    var l := Run(steps).resources[key];
    more := OwnPass(steps, key, |l| - 1);
    OwnersDecide(Last(l), Last(Run(more).resources[key]));
  }

  lemma {:induction false} BecomesStartable(steps: seq<Step>, key: Key) returns (more: seq<Step>)
    requires key in Run(steps).resources && Tended(Last(Run(steps).resources[key]))
    ensures steps <= more && key in Run(more).resources
    ensures Run(more).environments == Run(steps).environments
    ensures Startable(Last(Run(more).resources[key])) && !OwnedByEnvironment(Last(Run(more).resources[key]))
  {
    var first := TendedPass(steps, key);
    var second := TendedPass(first, key);
    more := Then(second, DeleteResource(key));
    OwnersDecide(Last(Run(second).resources[key]), Last(Run(more).resources[key]));
  }

  lemma {:induction false} StartsOwnJob(steps: seq<Step>, key: Key, at: nat) returns (more: seq<Step>)
    requires key in Run(steps).resources && at < |Run(steps).resources[key]|
    requires Startable(Run(steps).resources[key][at]) && !OwnedByEnvironment(Run(steps).resources[key][at])
    ensures steps <= more && ReleasedByItself(Run(more), key) && Run(more).environments == Run(steps).environments
  {
    more := OwnPass(steps, key, at);
    assert Run(more).jobs[|Run(steps).jobs|].owner == OfResource(key);
  }

  /** As long as its path is open, the own controller can release the resource. */
  lemma {:induction false} OwnReleases(steps: seq<Step>, key: Key) returns (more: seq<Step>)
    requires OwnPathOpen(Run(steps), key)
    ensures steps <= more && ReleasedByItself(Run(more), key) && Run(more).environments == Run(steps).environments
  {
    if ReleasedByItself(Run(steps), key) {
      more := steps;
    } else {
      RunKeepsOwnSides(steps);
      assert OwnSide(Run(steps), key);
      var l := Run(steps).resources[key];
      assert OwnVersion(Run(steps), key, l[|l| - 1]) && !OwnedByEnvironment(l[|l| - 1]);
      if Last(l).deleting {
        var i: nat :| i < |l| && Startable(l[i]);
        more := StartsOwnJob(steps, key, i);
      } else {
        var ready := BecomesStartable(steps, key);
        more := StartsOwnJob(ready, key, |Run(ready).resources[key]| - 1);
      }
    }
  }

  // ---------------------------------------------------------------- the exact condition

  lemma {:induction false} BothHappen(steps: seq<Step>, key: Key, name: string) returns (more: seq<Step>)
    requires OwnPathOpen(Run(steps), key) && EnvironmentPathOpen(Run(steps), key, name) && Distinct(Run(steps))
    ensures Distinct(Run(steps + more)) && ReleasedTwice(Run(steps + more), key)
  {
    var first := EnvironmentReleases(steps, key, name);
    Reaches(steps, first);
    StaysReleased(Run(steps), Run(first), key);
    var second := OwnReleases(first, key);
    Reaches(first, second);
    StaysReleased(Run(first), Run(second), key);
    DistinctKept(Run(steps), Run(second));
    more := second[|steps|..];
    assert steps + more == second;
  }

  /** The continuation releases the resource by both paths. */
  ghost predicate Leads(steps: seq<Step>, more: seq<Step>, key: Key) {
    Distinct(Run(steps + more)) && ReleasedTwice(Run(steps + more), key)
  }

  /** Exactly when a resource named by an environment can still be released by both paths, while
      environments do not share providers: no environment took it; its own controller has released
      it or it is still in the store; the environment ran out of time while pending or is still in
      its window; and the environment has released it or is still in the store. */
  lemma {:induction false} DoubleReleaseExactly(steps: seq<Step>, key: Key, name: string)
    requires key in Run(steps).resources && Names(Run(steps), name, key) && Distinct(Run(steps))
    ensures (exists more :: Leads(steps, more, key))
       <==> OwnPathOpen(Run(steps), key) && EnvironmentPathOpen(Run(steps), key, name)
  {
    if more :| Leads(steps, more, key) { BothNeed(steps, more, key, name); }
    if OwnPathOpen(Run(steps), key) && EnvironmentPathOpen(Run(steps), key, name) {
      var more := BothHappen(steps, key, name);
      assert Leads(steps, more, key);
    }
  }
}
