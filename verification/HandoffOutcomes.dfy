/**
 What the conditions of the handoff objects say: when an environment shows that its deadline
 passed, and which condition each pass over the newest version leaves behind.
 */
module HandoffOutcomes {
  import opened Conditions
  import opened Handoff
  import opened HandoffInvariant
  import opened HandoffSteps
  import Jobs

  // ---------------------------------------------------------------- the deadline

  /** The step lets the deadline of this environment fire, and its write goes through. */
  predicate Fires(w: World, step: Step, name: string) {
    step.Expire? && step.name == name && Enabled(w, step) && step.at == |w.environments[name].life| - 1
  }

  ghost predicate FiresAt(steps: seq<Step>, n: nat, name: string) {
    n < |steps| && Fires(Run(steps[..n]), steps[n], name)
  }

  predicate TimedOut(w: World, name: string) {
    name in w.environments && ReasonIs(Last(w.environments[name].life).active, DeadlineExceeded)
  }

  /** Every step keeps the reason of an exceeded deadline, and only the deadline sets it. */
  lemma {:induction false} StepTimesOut(w: World, step: Step, name: string)
    ensures TimedOut(Apply(w, step), name) <==> TimedOut(w, name) || Fires(w, step, name)
  {
    if Enabled(w, step) && name in w.environments && name in Effect(w, step).environments {
      if step.EnvironmentStep? {
        ControllerTimesOut(w, step, name);
      } else if step.Expire? || step.Activate? || step.Complete? || step.DeleteEnvironment? {
        VersionTimesOut(w, step, name);
      } else {
        assert Effect(w, step).environments[name].life == w.environments[name].life;
      }
    }
  }

  lemma {:induction false} VersionTimesOut(w: World, step: Step, name: string)
    requires step.Expire? || step.Activate? || step.Complete? || step.DeleteEnvironment?
    requires Enabled(w, step)
    ensures TimedOut(Apply(w, step), name) <==> TimedOut(w, name) || Fires(w, step, name)
  {
    match step
    case Expire(other, at, message) =>
    case Activate(other, at, seen) =>
    case Complete(other, at, views, out, found) =>
    case DeleteEnvironment(other) =>
  }

  lemma {:induction false} ControllerTimesOut(w: World, step: Step, name: string)
    requires step.EnvironmentStep? && Enabled(w, step)
    ensures TimedOut(Apply(w, step), name) <==> TimedOut(w, name)
  {
    var e := w.environments[step.name];
    var d := EnvironmentDecision(e.life[step.at], Announced(step.views), step.out);
    if d.Put? && Accepted(e.life, step.at, d.version) {
      assert ReasonIs(d.version.active, DeadlineExceeded) <==> ReasonIs(Last(e.life).active, DeadlineExceeded);
    }
  }

  lemma {:induction false} FiresEarlier(steps: seq<Step>, n: nat, name: string)
    requires n < |steps| - 1
    ensures FiresAt(steps, n, name) <==> FiresAt(steps[..|steps| - 1], n, name)
  {
    assert steps[..|steps| - 1][..n] == steps[..n];
  }

  /** In every run: an environment shows that its deadline was exceeded exactly if the deadline
      fired, whatever releases, failures or completions were reported after that. */
  lemma {:induction false} DeadlineShownExactly(steps: seq<Step>, name: string)
    ensures TimedOut(Run(steps), name) <==> exists n: nat :: FiresAt(steps, n, name)
  {
    if steps == [] {
    } else {
      var last := |steps| - 1;
      StepTimesOut(Run(steps[..last]), steps[last], name);
      DeadlineShownExactly(steps[..last], name);
      if n: nat :| FiresAt(steps[..last], n, name) { FiresEarlier(steps, n, name); }
      if n: nat :| FiresAt(steps, n, name) { if n < last { FiresEarlier(steps, n, name); } }
      if Fires(Run(steps[..last]), steps[last], name) { assert FiresAt(steps, last, name); }
    }
  }

  /** In every run, every version of an environment after one that ran out of time says so too. */
  lemma {:induction false} TimedOutStays(steps: seq<Step>, name: string, i: nat, j: nat)
    requires name in Run(steps).environments && i < j < |Run(steps).environments[name].life|
    requires ReasonIs(Run(steps).environments[name].life[i].active, DeadlineExceeded)
    ensures ReasonIs(Run(steps).environments[name].life[j].active, DeadlineExceeded)
  {
    RunKeeps(steps);
    assert EnvironmentOk(Run(steps), name);
    var l := Run(steps).environments[name].life;
    assert EnvironmentMove(l[i], l[j]);
  }

  // ---------------------------------------------------------------- listings

  predicate AllShow(views: seq<JobView>, class_: Jobs.JobClass) {
    views != [] && forall i :: 0 <= i < |views| ==> views[i].class_ == class_
  }

  /** No listed job is running and one completed. */
  predicate ShowsSuccess(views: seq<JobView>) {
    && (forall i :: 0 <= i < |views| ==> views[i].class_ != Jobs.ActiveJob)
    && exists i :: 0 <= i < |views| && views[i].class_ == Jobs.SuccessfulJob
  }

  lemma {:induction false} AnnouncedMeaning(views: seq<JobView>)
    ensures Announced(views) == Some(Jobs.ActiveJobs) <==> AllShow(views, Jobs.ActiveJob)
    ensures Announced(views) == Some(Jobs.FailedJobs) <==> AllShow(views, Jobs.FailedJob)
    ensures Announced(views) == Some(Jobs.SuccessfulJobs) <==> ShowsSuccess(views)
    ensures Announced(views) == Some(Jobs.NoJobs) <==> views == []
  {
    var classes := seq(|views|, i requires 0 <= i < |views| => views[i].class_);
    forall i | 0 <= i < |views| ensures views[i].class_ in classes { assert classes[i] == views[i].class_; }
    if views == [] {
    } else {
      assert views[0].class_ in classes;
    }
  }

  // ---------------------------------------------------------------- what a pass leaves behind

  function Environment(w: World, name: string): Object
    requires name in w.environments
  {
    Last(w.environments[name].life)
  }

  function Newest(w: World, name: string): nat
    requires name in w.environments
  {
    |w.environments[name].life| - 1
  }

  /** The reason a released environment gives: the exceeded deadline wins over everything else. */
  predicate Gives(before: Object, after: Object, reason: Reason, message: string) {
    after.active == Some(Condition(False,
      if ReasonIs(before.active, DeadlineExceeded) then DeadlineExceeded else reason, message))
  }

  /** A pass over the newest version of an environment that is being released: what its release
      jobs show decides the condition, and nothing else changes. */
  lemma {:induction false} ReleaseOutcome(w: World, name: string, views: seq<JobView>, out: Outcome)
    requires name in w.environments && Holds(w, name, Newest(w, name)) && Releasing(Environment(w, name))
    requires Listed(w, OfEnvironment(name), views)
    ensures var e := Environment(w, name);
            var w' := Apply(w, EnvironmentStep(name, Newest(w, name), views, out));
            && name in w'.environments
            && var e' := Environment(w', name);
            && e' == e.(active := e'.active)
            && (AllShow(views, Jobs.ActiveJob) ==> Gives(e, e', Active, "Release job is running"))
            && (AllShow(views, Jobs.FailedJob) ==> Gives(e, e', Failed, out.description))
            && (views == [] && e.deleting && out.creationError.Some? && !ReasonIs(e.active, Failed) ==>
                  Gives(e, e', Failed, out.creationError.value))
            && (views != [] && !AllShow(views, Jobs.ActiveJob) && !AllShow(views, Jobs.FailedJob) ==> e' == e)
            && (views == [] && (!e.deleting || out.creationError.None?) ==> e' == e)
  {
    AnnouncedMeaning(views);
  }

  /** The pass that completes an environment reports the outcome of its release job. */
  lemma {:induction false} CompletionOutcome(w: World, name: string, views: seq<JobView>, out: Outcome, found: Found)
    requires name in w.environments && Enabled(w, Complete(name, Newest(w, name), views, out, found))
    ensures ShowsSuccess(views)
    ensures var e := Environment(w, name);
            var w' := Apply(w, Complete(name, Newest(w, name), views, out, found));
            && name in w'.environments
            && var e' := Environment(w', name);
            && e'.completed && e' == e.(active := e'.active, completed := true)
            && (out.failed ==> Gives(e, e', Failed, out.description))
            && (!out.failed ==> Gives(e, e', Completed, out.description))
  {
    AnnouncedMeaning(views);
  }

  /** The pass that completes the handoff reports the environment as in use. */
  lemma {:induction false} ActivationOutcome(w: World, name: string, seen: Seen)
    requires name in w.environments && Enabled(w, Activate(name, Newest(w, name), seen))
    ensures var w' := Apply(w, Activate(name, Newest(w, name), seen));
            && name in w'.environments
            && Environment(w', name)
               == Environment(w, name).(active := Some(Condition(True, Completed, "Actively being used")))
  {
    assert Accepted(w.environments[name].life, Newest(w, name), Activated(Environment(w, name)));
  }

  function Resource(w: World, key: Key): Object
    requires key in w.resources
  {
    Last(w.resources[key])
  }

  /** The condition of a resource of this kind that is being released. */
  predicate ShowsRelease(kind: Kind, active: Slot) {
    && active.Some? && active.value.status == False && active.value.reason == Pending
    && match kind
       case Iut => active.value.message == "Releasing IUT"
       case LogArea => active.value.message == "Releasing LogArea"
       case ExecutionSpace => active.value.message == "Releasing ExecutionSpace"
  }

  /** A pass over the newest version of a resource that an environment owns: it takes the
      controller's own finalizer off, then reports the use, then the release. */
  lemma {:induction false} OwnedOutcome(w: World, key: Key, views: seq<JobView>, out: Outcome)
    requires key in w.resources && ReadableKey(w, key, |w.resources[key]| - 1)
    requires Listed(w, OfResource(key), views) && OwnedByEnvironment(Resource(w, key))
    ensures var r := Resource(w, key);
            var w' := Apply(w, ResourceStep(key, |w.resources[key]| - 1, views, out));
            && w'.jobs == w.jobs && key in w'.resources
            && var r' := Resource(w', key);
            && ProviderFinalizer !in r'.finalizers
            && r' == r.(finalizers := r.finalizers - {ProviderFinalizer}, active := r'.active)
            && (ProviderFinalizer !in r.finalizers && !r.deleting ==> r'.active == Some(Condition(True, Active, "In use")))
            && (ProviderFinalizer !in r.finalizers && r.deleting ==> ShowsRelease(key.kind, r'.active))
  {
  }

  /** A pass over the newest version of a resource that its own controller releases. */
  lemma {:induction false} OwnReleaseOutcome(w: World, key: Key, views: seq<JobView>, out: Outcome)
    requires key in w.resources && ReadableKey(w, key, |w.resources[key]| - 1)
    requires Listed(w, OfResource(key), views) && !OwnedByEnvironment(Resource(w, key))
    requires Resource(w, key).deleting && !Resource(w, key).completed
    requires Resource(w, key).active.Some? && !ReasonIs(Resource(w, key).active, Failed)
    ensures var r := Resource(w, key);
            var w' := Apply(w, ResourceStep(key, |w.resources[key]| - 1, views, out));
            && key in w'.resources
            && var r' := Resource(w', key);
            && r' == r.(active := r'.active, completed := r'.completed)
            && (|w'.jobs| == |w.jobs| + 1 <==> views == [] && out.creationError.None?)
            && (views == [] && out.creationError.Some? ==>
                  r'.active == Some(Condition(False, Failed, out.creationError.value)) && !r'.completed)
            && (AllShow(views, Jobs.FailedJob) ==>
                  r'.active == Some(Condition(False, Failed, out.description)) && !r'.completed)
            && (ShowsSuccess(views) && out.failed ==>
                  r'.active == Some(Condition(False, Failed, out.description)) && r'.completed)
            && (ShowsSuccess(views) && !out.failed && r.active != Some(Condition(False, Completed, out.description)) ==>
                  r'.active == Some(Condition(False, Completed, out.description)) && r'.completed)
            && (AllShow(views, Jobs.ActiveJob) ==> ShowsRelease(key.kind, r'.active) && !r'.completed)
  {
    AnnouncedMeaning(views);
  }

  /** A pass over the newest version of a resource no environment owns, before anything is released:
      it is marked as waiting first, then gets the finalizer of its controller. */
  lemma {:induction false} WaitingOutcome(w: World, key: Key, views: seq<JobView>, out: Outcome)
    requires key in w.resources && ReadableKey(w, key, |w.resources[key]| - 1)
    requires Listed(w, OfResource(key), views) && !OwnedByEnvironment(Resource(w, key))
    requires !Resource(w, key).completed
    ensures var r := Resource(w, key);
            var w' := Apply(w, ResourceStep(key, |w.resources[key]| - 1, views, out));
            && key in w'.resources
            && (r.active.None? ==>
                  Resource(w', key) == r.(active := Some(Condition(False, Pending, "Waiting for environment"))))
            && (r.active.Some? && !r.deleting && !ReasonIs(r.active, Failed) ==>
                  Resource(w', key) == r.(finalizers := r.finalizers + {ProviderFinalizer}))
  {
    var r := Resource(w, key);
    assert r.finalizers + {ProviderFinalizer} == r.finalizers <==> ProviderFinalizer in r.finalizers;
  }

  /** A pass over the newest version of a resource that is released and that no environment owns:
      exactly a deletion makes it take off the finalizer of its controller. */
  lemma {:induction false} ReleasedOutcome(w: World, key: Key, views: seq<JobView>, out: Outcome)
    requires key in w.resources && ReadableKey(w, key, |w.resources[key]| - 1)
    requires Listed(w, OfResource(key), views) && !OwnedByEnvironment(Resource(w, key)) && Resource(w, key).completed
    ensures var r := Resource(w, key);
            var w' := Apply(w, ResourceStep(key, |w.resources[key]| - 1, views, out));
            && w'.jobs == w.jobs && key in w'.resources
            && (r.deleting ==> Resource(w', key) == r.(finalizers := r.finalizers - {ProviderFinalizer}))
            && (!r.deleting ==> Resource(w', key) == r)
  {
    var r := Resource(w, key);
    assert r.finalizers - {ProviderFinalizer} == r.finalizers <==> ProviderFinalizer !in r.finalizers;
  }

  lemma {:induction false} KeptOwners(w: World, owners: seq<OwnerRef>, ref: OwnerRef)
    ensures multiset(WithoutDangling(w, owners))[ref] == if Dangling(w, ref) then 0 else multiset(owners)[ref]
  {
    if owners == [] {
    } else {
      KeptOwners(w, owners[1..], ref);
      assert owners == [owners[0]] + owners[1..];
    }
  }

  /** Garbage collection takes exactly the references to environments that are gone off a resource. */
  lemma {:induction false} CollectionOutcome(w: World, key: Key, ref: OwnerRef)
    requires key in w.resources && Alive(w.resources[key]) && Enabled(w, CollectOwners(key))
    ensures var r := Resource(w, key);
            var w' := Apply(w, CollectOwners(key));
            && key in w'.resources
            && var r' := Resource(w', key);
            && r' == r.(owners := r'.owners)
            && multiset(r'.owners)[ref] == if Dangling(w, ref) then 0 else multiset(r.owners)[ref]
  {
    KeptOwners(w, Resource(w, key).owners, ref);
  }
}
