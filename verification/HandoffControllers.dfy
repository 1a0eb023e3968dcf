/**
 The reconcilers as the program runs them: sequential code that fetches an object, changes
 the fetched copy in place and writes it back, while everybody else may act between any
 two of its operations. Each operation a pass performs on the store is a step of the
 protocol, so the theorems about runs hold of these passes under any interference.
 */
module HandoffControllers {
  import opened Conditions
  import opened Handoff
  import opened HandoffInvariant
  import opened HandoffSteps
  import opened HandoffOwnership
  import opened HandoffTheorems
  import Jobs

  /** The API server, with the run that led to its present content and the part of that run
      performed by the pass under consideration. */
  class Cluster {
    var world: World
    ghost var steps: seq<Step>
    ghost var mine: seq<Step>

    ghost predicate Valid()
      reads this
    {
      world == Run(steps)
    }

    constructor ()
      ensures Valid() && world == EMPTY && mine == []
    {
      world, steps, mine := EMPTY, [], [];
    }

    method Do(step: Step)
      requires Valid()
      modifies this
      ensures Valid() && steps == old(steps) + [step] && world == Apply(old(world), step)
      ensures mine == old(mine) + [step]
    {
      RunSnoc(steps, step);
      world, steps, mine := Apply(world, step), steps + [step], mine + [step];
    }

    /** Other controllers, users and the rest of the system act. */
    method Others(script: seq<Step>)
      requires Valid()
      modifies this`world, this`steps
      ensures Valid() && steps == old(steps) + script
    {
      for i := 0 to |script|
        invariant Valid() && steps == old(steps) + script[..i]
      {
        RunSnoc(steps, script[i]);
        world, steps := Apply(world, script[i]), steps + [script[i]];
      }
    }
  }

  lemma {:induction false} ListedStays(steps: seq<Step>, steps': seq<Step>, owner: JobOwner, views: seq<JobView>)
    requires steps <= steps' && Listed(Run(steps), owner, views)
    ensures Listed(Run(steps'), owner, views)
  {
    Reaches(steps, steps');
  }

  lemma {:induction false} VersionStays(steps: seq<Step>, steps': seq<Step>, key: Key, at: nat)
    requires steps <= steps' && ReadableKey(Run(steps), key, at)
    ensures ReadableKey(Run(steps'), key, at) && Run(steps').resources[key][at] == Run(steps).resources[key][at]
  {
    Reaches(steps, steps');
  }

  lemma {:induction false} JobStays(steps: seq<Step>, steps': seq<Step>, n: nat)
    requires steps <= steps' && n < |Run(steps).jobs|
    ensures n < |Run(steps').jobs|
    ensures Run(steps').jobs[n].owner == Run(steps).jobs[n].owner && Run(steps').jobs[n].covers == Run(steps).jobs[n].covers
  {
    Reaches(steps, steps');
  }

  lemma {:induction false} RunningJob(job: nat)
    ensures Announced([JobView(job, Jobs.ActiveJob)]) == Some(Jobs.ActiveJobs)
  {
    var running := [JobView(job, Jobs.ActiveJob)];
    var classes := seq(|running|, i requires 0 <= i < |running| => running[i].class_);
    assert classes == [Jobs.ActiveJob];
  }

  // ---------------------------------------------------------------- the copy a pass works on

  class Fetched {
    const deleting: bool
    const owners: seq<OwnerRef>
    var finalizers: set<Finalizer>
    var active: Slot
    var completed: bool
    var at: nat

    constructor (o: Object, at: nat)
      ensures Value() == o && this.at == at
    {
      deleting, owners := o.deleting, o.owners;
      finalizers, active, completed, this.at := o.finalizers, o.active, o.completed, at;
    }

    function Value(): Object
      reads this
    {
      Object(deleting, finalizers, owners, active, completed)
    }

    method SetActive(c: Condition) returns (changed: bool)
      modifies this`active
      ensures changed <==> Changes(old(active), c)
      ensures active == Some(c)
    {
      changed := Changes(active, c);
      active := Some(c);
    }
  }

  /** The copy is a stored version: the one it was read from or last written as. */
  ghost predicate InSync(w: World, key: Key, copy: Fetched)
    reads copy
  {
    ReadableKey(w, key, copy.at) && w.resources[key][copy.at] == copy.Value()
  }

  // ---------------------------------------------------------------- the controllers of resources

  /** Writes a changed copy back; succeeds exactly when nobody wrote since it was read. */
  method Write(cluster: Cluster, key: Key, copy: Fetched, views: seq<JobView>, out: Outcome) returns (ok: bool)
    requires cluster.Valid() && ReadableKey(cluster.world, key, copy.at) && Listed(cluster.world, OfResource(key), views)
    requires ResourceDecision(key.kind, cluster.world.resources[key][copy.at], Announced(views), out) == Put(copy.Value())
    modifies cluster, copy`at
    ensures cluster.Valid() && cluster.steps == old(cluster.steps) + [ResourceStep(key, old(copy.at), views, out)]
    ensures cluster.mine == old(cluster.mine) + [ResourceStep(key, old(copy.at), views, out)]
    ensures ok <==> Accepted(old(cluster.world).resources[key], old(copy.at), copy.Value())
    ensures ok ==> key in cluster.world.resources && Last(cluster.world.resources[key]) == copy.Value()
    ensures ok && !Gone(copy.Value()) ==> InSync(cluster.world, key, copy)
    ensures !ok ==> cluster.world == old(cluster.world)
  {
    var l := cluster.world.resources[key];
    ok := Accepted(l, copy.at, copy.Value());
    cluster.Do(ResourceStep(key, copy.at, views, out));
    if ok {
      copy.at := |l|;
    } else {
      assert UpdateResource(old(cluster.world), key, copy.at, copy.Value()) == old(cluster.world);
    }
  }

  /** Between `from` and `to` a pass performed at most `most` operations, all of them
      steps of the controller of this resource. */
  ghost predicate OwnSteps(from: seq<Step>, to: seq<Step>, key: Key, most: nat) {
    && |from| <= |to| <= |from| + most
    && to[..|from|] == from
    && forall i :: |from| <= i < |to| ==> to[i].ResourceStep? && to[i].key == key
  }

  /** The condition reported for a resource in the hands of an environment. */
  function ReportFor(kind: Kind, r: Object): Condition {
    if !r.deleting then Condition(True, Active, "In use") else Condition(False, Pending, ReleasingMessage(kind))
  }

  /** Reports the state of a resource that no longer has the provider finalizer. */
  method Report(cluster: Cluster, key: Key, copy: Fetched, views: seq<JobView>, out: Outcome) returns (done: bool)
    requires cluster.Valid() && InSync(cluster.world, key, copy) && Listed(cluster.world, OfResource(key), views)
    requires OwnedByEnvironment(copy.Value()) && ProviderFinalizer !in copy.finalizers
    modifies cluster, copy
    ensures cluster.Valid() && old(cluster.steps) <= cluster.steps && OwnSteps(old(cluster.mine), cluster.mine, key, 1)
    ensures done ==>
              && InSync(cluster.world, key, copy) && copy.Value() == old(copy.Value()).(active := copy.active)
              && copy.active == Some(ReportFor(key.kind, copy.Value()))
  {
    var c := ReportFor(key.kind, copy.Value());
    var changed := copy.SetActive(c);
    done := true;
    if changed {
      done := Write(cluster, key, copy, views, out);
    }
  }

  /** Takes the provider finalizer off a resource an environment owns; then others may act. */
  method GiveUp(cluster: Cluster, key: Key, copy: Fetched, views: seq<JobView>, out: Outcome, others: seq<Step>)
    returns (done: bool)
    requires cluster.Valid() && InSync(cluster.world, key, copy) && Listed(cluster.world, OfResource(key), views)
    requires OwnedByEnvironment(copy.Value()) && ProviderFinalizer in copy.finalizers
    modifies cluster, copy
    ensures cluster.Valid() && old(cluster.steps) <= cluster.steps && OwnSteps(old(cluster.mine), cluster.mine, key, 1)
    ensures done ==> !Gone(copy.Value())
    ensures done ==> InSync(cluster.world, key, copy) && Listed(cluster.world, OfResource(key), views)
    ensures done ==> copy.Value() == old(copy.Value()).(finalizers := old(copy.finalizers) - {ProviderFinalizer})
  {
    copy.finalizers := copy.finalizers - {ProviderFinalizer};
    done := Write(cluster, key, copy, views, out);
    if !done || Gone(copy.Value()) { return false; }
    ghost var steps := cluster.steps;
    cluster.Others(others);
    VersionStays(steps, cluster.steps, key, copy.at);
    ListedStays(old(cluster.steps), cluster.steps, OfResource(key), views);
  }

  /** A pass over a resource an environment owns: give up the provider finalizer, then
      report. A pass that is not interrupted leaves the resource, still owned, without the
      provider finalizer and correctly reported. */
  method Relinquish(cluster: Cluster, key: Key, copy: Fetched, views: seq<JobView>, out: Outcome, others: seq<Step>)
    returns (done: bool)
    requires cluster.Valid() && InSync(cluster.world, key, copy) && Listed(cluster.world, OfResource(key), views)
    requires OwnedByEnvironment(copy.Value())
    modifies cluster, copy
    ensures cluster.Valid() && old(cluster.steps) <= cluster.steps && OwnSteps(old(cluster.mine), cluster.mine, key, 2)
    ensures done ==>
              && InSync(cluster.world, key, copy) && ProviderFinalizer !in copy.finalizers
              && copy.active == Some(ReportFor(key.kind, copy.Value()))
  {
    if ProviderFinalizer in copy.finalizers {
      ghost var owned := copy.Value();
      done := GiveUp(cluster, key, copy, views, out, others);
      if !done { return; }
      OwnersDecide(owned, copy.Value());
    }
    done := Report(cluster, key, copy, views, out);
  }

  /** This job releases this resource on behalf of its own controller. */
  ghost predicate IsOwnJob(w: World, key: Key, job: nat) {
    job < |w.jobs| && w.jobs[job].owner == OfResource(key) && w.jobs[job].covers == {key}
  }

  /** Creates the release job of a resource; then others may act. */
  method CreateOwnJob(cluster: Cluster, key: Key, copy: Fetched, views: seq<JobView>, out: Outcome, others: seq<Step>)
    returns (job: nat)
    requires cluster.Valid() && InSync(cluster.world, key, copy) && Listed(cluster.world, OfResource(key), views)
    requires ResourceDecision(key.kind, copy.Value(), Announced(views), out).StartJob?
    modifies cluster
    ensures cluster.Valid() && old(cluster.steps) <= cluster.steps && OwnSteps(old(cluster.mine), cluster.mine, key, 1)
    ensures InSync(cluster.world, key, copy)
    ensures job == |old(cluster.world).jobs| && IsOwnJob(cluster.world, key, job)
  {
    job := |cluster.world.jobs|;
    cluster.Do(ResourceStep(key, copy.at, views, out));
    assert cluster.world.jobs[job] == ReleaseJob(OfResource(key), {key}, Jobs.ActiveJob);
    ghost var created := cluster.steps;
    cluster.Others(others);
    JobStays(created, cluster.steps, job);
    VersionStays(old(cluster.steps), cluster.steps, key, copy.at);
  }

  /** Creates the release job of a resource, then reports that it is being released. */
  method StartRelease(cluster: Cluster, key: Key, copy: Fetched, views: seq<JobView>, out: Outcome, others: seq<Step>)
    returns (job: nat)
    requires cluster.Valid() && InSync(cluster.world, key, copy) && Listed(cluster.world, OfResource(key), views)
    requires ResourceDecision(key.kind, copy.Value(), Announced(views), out).StartJob?
    modifies cluster, copy
    ensures cluster.Valid() && old(cluster.steps) <= cluster.steps && OwnSteps(old(cluster.mine), cluster.mine, key, 2)
    ensures job == |old(cluster.world).jobs| && IsOwnJob(cluster.world, key, job)
  {
    job := CreateOwnJob(cluster, key, copy, views, out, others);
    ghost var created := cluster.steps;
    var changed := copy.SetActive(Condition(False, Pending, ReleasingMessage(key.kind)));
    if changed {
      RunningJob(job);
      var ok := Write(cluster, key, copy, [JobView(job, Jobs.ActiveJob)], out);
      JobStays(created, cluster.steps, job);
    }
  }

  /** A pass over a resource that is being deleted by its own controller. */
  method Releaser(cluster: Cluster, key: Key, copy: Fetched, views: seq<JobView>, out: Outcome, others: seq<Step>)
    returns (created: bool)
    requires cluster.Valid() && InSync(cluster.world, key, copy) && Listed(cluster.world, OfResource(key), views)
    requires ResourceDecision(key.kind, copy.Value(), Announced(views), out) == ReleaserDecision(key.kind, copy.Value(), Announced(views), out)
    modifies cluster, copy
    ensures cluster.Valid() && old(cluster.steps) <= cluster.steps && OwnSteps(old(cluster.mine), cluster.mine, key, 2)
    ensures created <==> Announced(views) == Some(Jobs.NoJobs) && out.creationError.None?
    ensures created ==> ReleasedByItself(cluster.world, key)
  {
    created := false;
    var changed := false;
    match Announced(views) {
      case None => return;
      case Some(FailedJobs) =>
        changed := copy.SetActive(Condition(False, Failed, out.description));
      case Some(SuccessfulJobs) =>
        copy.completed := true;
        changed := copy.SetActive(FinalCondition(out));
      case Some(ActiveJobs) =>
        changed := copy.SetActive(Condition(False, Pending, ReleasingMessage(key.kind)));
      case Some(NoJobs) =>
        if out.creationError.None? {
          created := true;
          var job := StartRelease(cluster, key, copy, views, out, others);
          return;
        }
        changed := copy.SetActive(Condition(False, Failed, out.creationError.value));
    }
    if changed {
      var ok := Write(cluster, key, copy, views, out);
    }
  }

  /** A whole pass of the controller of an IUT, LogArea or ExecutionSpace, from any version
      the cache serves. It performs at most two store operations, each a step of the
      protocol, and creates a release job only for a resource that is being deleted while
      no environment owns it. */
  method Reconcile(cluster: Cluster, key: Key, at: nat, views: seq<JobView>, out: Outcome, others: seq<Step>)
    returns (created: bool)
    requires cluster.Valid() && ReadableKey(cluster.world, key, at) && Listed(cluster.world, OfResource(key), views)
    modifies cluster
    ensures cluster.Valid() && old(cluster.steps) <= cluster.steps && OwnSteps(old(cluster.mine), cluster.mine, key, 2)
    ensures created ==> ReleasedByItself(cluster.world, key)
    ensures created ==> var r := old(cluster.world).resources[key][at]; r.deleting && !OwnedByEnvironment(r) && !r.completed
  {
    created := false;
    var copy := new Fetched(cluster.world.resources[key][at], at);
    if OwnedByEnvironment(copy.Value()) {
      var done := Relinquish(cluster, key, copy, views, out, others);
      return;
    }
    if copy.completed {
      if copy.deleting && ProviderFinalizer in copy.finalizers {
        copy.finalizers := copy.finalizers - {ProviderFinalizer};
        var ok := Write(cluster, key, copy, views, out);
      }
      return;
    }
    if copy.active.None? {
      var changed := copy.SetActive(Condition(False, Pending, "Waiting for environment"));
      var ok := Write(cluster, key, copy, views, out);
      return;
    }
    if ReasonIs(copy.active, Failed) { return; }
    if !copy.deleting {
      if ProviderFinalizer !in copy.finalizers {
        copy.finalizers := copy.finalizers + {ProviderFinalizer};
        var ok := Write(cluster, key, copy, views, out);
      }
      return;
    }
    created := Releaser(cluster, key, copy, views, out, others);
  }

  // ---------------------------------------------------------------- the environment controller

  /** One worker at a time reconciles an environment: a step of another actor is not a step
      of this environment's controller. */
  predicate ByOthers(step: Step, name: string) {
    (step.EnvironmentStep? || step.EndPass? || step.Expire? || step.TakeOwnership? || step.Activate?
      || step.CreateReleaseJob? || step.ReleaseProvider? || step.Complete?) ==> step.name != name
  }

  predicate AllByOthers(script: seq<Step>, name: string) {
    forall i :: 0 <= i < |script| ==> ByOthers(script[i], name)
  }

  lemma {:induction false} HoldsOneStep(w: World, step: Step, name: string, at: nat)
    requires Holds(w, name, at) && ByOthers(step, name)
    ensures Holds(Apply(w, step), name, at)
    ensures Apply(w, step).environments[name].life[at] == w.environments[name].life[at]
    ensures Apply(w, step).environments[name].providers == w.environments[name].providers
  {
  }

  lemma {:induction false} HoldsOn(steps: seq<Step>, script: seq<Step>, name: string, at: nat)
    requires Holds(Run(steps), name, at) && AllByOthers(script, name)
    ensures Holds(Run(steps + script), name, at)
    ensures Run(steps + script).environments[name].life[at] == Run(steps).environments[name].life[at]
    ensures Run(steps + script).environments[name].providers == Run(steps).environments[name].providers
  {
    if script == [] {
      assert steps + script == steps;
    } else {
      var init, last := script[..|script| - 1], script[|script| - 1];
      HoldsOn(steps, init, name, at);
      RunSnoc(steps + init, last);
      assert steps + init + [last] == steps + script;
      HoldsOneStep(Run(steps + init), last, name, at);
    }
  }

  /** Takes over one provider, or finds that it already has a controller. On success the
      provider has a version with a controller reference. */
  method TakeOver(cluster: Cluster, name: string, at: nat, kind: Kind, read: nat, others: seq<Step>)
    returns (ok: bool, seenAt: nat)
    requires cluster.Valid() && Holds(cluster.world, name, at) && Taking(cluster.world.environments[name].life[at])
    requires AllByOthers(others, name)
    modifies cluster
    ensures cluster.Valid() && old(cluster.steps) <= cluster.steps
    ensures Holds(cluster.world, name, at)
    ensures cluster.world.environments[name].life[at] == old(cluster.world).environments[name].life[at]
    ensures cluster.world.environments[name].providers == old(cluster.world).environments[name].providers
    ensures ok ==> var key := KeyOf(cluster.world.environments[name].providers, kind);
                   ReadableKey(cluster.world, key, seenAt) && HasController(cluster.world.resources[key][seenAt])
  {
    cluster.Others(others);
    HoldsOn(old(cluster.steps), others, name, at);
    var key := KeyOf(cluster.world.environments[name].providers, kind);
    seenAt := read;
    if !ReadableKey(cluster.world, key, read) { return false, read; }
    var r := cluster.world.resources[key][read];
    if HasController(r) { return true, read; }
    var l := cluster.world.resources[key];
    ok := Accepted(l, read, Taken(r, name));
    cluster.Do(TakeOwnership(name, at, kind, read));
    if ok {
      seenAt := |l|;
      assert Taken(r, name).owners[|r.owners|].controller;
    }
  }

  /** Takes over the three providers in turn, whatever others do in between. */
  method TakeAll(cluster: Cluster, name: string, at: nat, read: Seen, others: seq<seq<Step>>)
    returns (ok: bool, seen: Seen)
    requires cluster.Valid() && Holds(cluster.world, name, at) && Taking(cluster.world.environments[name].life[at])
    requires |others| == 3 && forall i :: 0 <= i < 3 ==> AllByOthers(others[i], name)
    modifies cluster
    ensures cluster.Valid() && old(cluster.steps) <= cluster.steps
    ensures Holds(cluster.world, name, at)
    ensures cluster.world.environments[name].life[at] == old(cluster.world).environments[name].life[at]
    ensures cluster.world.environments[name].providers == old(cluster.world).environments[name].providers
    ensures var p := cluster.world.environments[name].providers;
            ok ==> SeesControlled(cluster.world, p, seen, Iut) && SeesControlled(cluster.world, p, seen, LogArea)
                   && SeesControlled(cluster.world, p, seen, ExecutionSpace)
  {
    ghost var p := cluster.world.environments[name].providers;
    var iutAt, logAt, spaceAt;
    seen := read;
    ok, iutAt := TakeOver(cluster, name, at, Iut, read.iut, others[0]);
    if !ok { return; }
    ghost var first := cluster.steps;
    ok, logAt := TakeOver(cluster, name, at, LogArea, read.logArea, others[1]);
    if !ok { return; }
    ghost var second := cluster.steps;
    ok, spaceAt := TakeOver(cluster, name, at, ExecutionSpace, read.executionSpace, others[2]);
    if !ok { return; }
    VersionStays(first, cluster.steps, KeyOf(p, Iut), iutAt);
    VersionStays(second, cluster.steps, KeyOf(p, LogArea), logAt);
    seen := Seen(iutAt, logAt, spaceAt);
  }

  lemma {:induction false} SightStays(steps: seq<Step>, steps': seq<Step>, p: Providers, seen: Seen, kind: Kind)
    requires steps <= steps' && SeesControlled(Run(steps), p, seen, kind)
    ensures SeesControlled(Run(steps'), p, seen, kind)
  {
    VersionStays(steps, steps', KeyOf(p, kind), SeenAt(seen, kind));
  }

  /** A pass over a pending environment: take over the three providers in turn, check that
      they are available, report the environment as active. Whatever happens in between, an
      environment reported active holds all three, unless its deadline once fired early. */
  method ReconcileEnvironment(cluster: Cluster, name: string, at: nat, read: Seen, available: bool, others: seq<seq<Step>>)
    returns (active: bool)
    requires cluster.Valid() && Holds(cluster.world, name, at) && Taking(cluster.world.environments[name].life[at])
    requires |others| == 4 && forall i :: 0 <= i < 4 ==> AllByOthers(others[i], name)
    modifies cluster
    ensures cluster.Valid() && old(cluster.steps) <= cluster.steps
    ensures active ==>
              && name in cluster.world.environments
              && Last(cluster.world.environments[name].life) == Activated(old(cluster.world).environments[name].life[at])
    ensures active && Distinct(cluster.world) && !HasExpired(cluster.world, name) ==> Holding(cluster.world, name)
  {
    active := false;
    var ok, seen := TakeAll(cluster, name, at, read, others[..3]);
    if !ok || !available { return; }
    ghost var p := cluster.world.environments[name].providers;
    ghost var taken := cluster.steps;
    cluster.Others(others[3]);
    HoldsOn(taken, others[3], name, at);
    SightStays(taken, cluster.steps, p, seen, Iut);
    SightStays(taken, cluster.steps, p, seen, LogArea);
    SightStays(taken, cluster.steps, p, seen, ExecutionSpace);
    active := ReportActive(cluster, name, at, seen);
    if active && Distinct(cluster.world) && !HasExpired(cluster.world, name) {
      RunKeeps(cluster.steps);
      HoldingUnlessExpired(cluster.world, name);
    }
  }

  method ReportActive(cluster: Cluster, name: string, at: nat, seen: Seen) returns (active: bool)
    requires cluster.Valid() && Holds(cluster.world, name, at) && Taking(cluster.world.environments[name].life[at])
    requires var p := cluster.world.environments[name].providers;
             && SeesControlled(cluster.world, p, seen, Iut) && SeesControlled(cluster.world, p, seen, LogArea)
             && SeesControlled(cluster.world, p, seen, ExecutionSpace)
    modifies cluster
    ensures cluster.Valid() && old(cluster.steps) <= cluster.steps
    ensures active ==>
              && name in cluster.world.environments
              && Last(cluster.world.environments[name].life) == Activated(old(cluster.world).environments[name].life[at])
  {
    var e := cluster.world.environments[name];
    assert forall kind :: SeesControlled(cluster.world, e.providers, seen, kind) by {
      forall kind ensures SeesControlled(cluster.world, e.providers, seen, kind) {
        match kind case Iut => case LogArea => case ExecutionSpace =>
      }
    }
    active := Accepted(e.life, at, Activated(e.life[at]));
    cluster.Do(Activate(name, at, seen));
  }

  // ---------------------------------------------------------------- letting go of the providers

  /** A provider once read as released stays read as released. */
  lemma {:induction false} ReadStays(steps: seq<Step>, script: seq<Step>, key: Key, read: Option<nat>)
    requires key in Run(steps).resources && ReadsReleased(Run(steps), key, read)
    ensures ReadsReleased(Run(steps + script), key, read)
  {
    if read.None? { GoneStays(steps, script, key); }
    else { VersionStays(steps, steps + script, key, read.value); }
  }

  /** The outcome of looking at one provider: nothing to do, a write was sent, or an error. */
  datatype Look = Clear | Sent | Error

  method LetGo(cluster: Cluster, name: string, at: nat, views: seq<JobView>, kind: Kind, read: Option<nat>) returns (look: Look)
    requires cluster.Valid() && Holds(cluster.world, name, at) && Releasing(cluster.world.environments[name].life[at])
    requires Listed(cluster.world, OfEnvironment(name), views) && Announced(views) == Some(Jobs.SuccessfulJobs)
    modifies cluster
    ensures cluster.Valid() && old(cluster.steps) <= cluster.steps
    ensures look.Clear? ==>
              && cluster.steps == old(cluster.steps)
              && ReadsReleased(cluster.world, KeyOf(cluster.world.environments[name].providers, kind), read)
    ensures look.Sent? ==>
              read.Some? && cluster.mine == old(cluster.mine) + [ReleaseProvider(name, at, views, kind, read.value)]
  {
    var key := KeyOf(cluster.world.environments[name].providers, kind);
    if read.None? {
      return if Absent(cluster.world, key) then Clear else Error;
    }
    if !ReadableKey(cluster.world, key, read.value) { return Error; }
    if ReleaseFinalizer in cluster.world.resources[key][read.value].finalizers {
      cluster.Do(ReleaseProvider(name, at, views, kind, read.value));
      return Sent;
    }
    return Clear;
  }

  lemma {:induction false} ProvidersExist(steps: seq<Step>, name: string, views: seq<JobView>, kind: Kind)
    requires name in Run(steps).environments
    requires Listed(Run(steps), OfEnvironment(name), views) && Announced(views) == Some(Jobs.SuccessfulJobs)
    ensures KeyOf(Run(steps).environments[name].providers, kind) in Run(steps).resources
  {
    RunKeeps(steps);
    var n := AnnouncedSuccess(Run(steps), OfEnvironment(name), views);
    assert JobOk(Run(steps), n);
  }

  /** Looks at the execution space, the log area and the IUT in that order, taking the
      release finalizer off the first that has it. Only a pass that found it on none of the
      three goes on to complete the environment, and then the completion step is enabled. */
  method ReleaseProviders(cluster: Cluster, name: string, at: nat, views: seq<JobView>, found: Found, others: seq<seq<Step>>)
    returns (look: Look)
    requires cluster.Valid() && Holds(cluster.world, name, at) && Releasing(cluster.world.environments[name].life[at])
    requires Listed(cluster.world, OfEnvironment(name), views) && Announced(views) == Some(Jobs.SuccessfulJobs)
    requires |others| == 2 && AllByOthers(others[0], name) && AllByOthers(others[1], name)
    modifies cluster
    ensures cluster.Valid() && old(cluster.steps) <= cluster.steps
    ensures look.Clear? ==> Holds(cluster.world, name, at)
    ensures look.Clear? ==> forall kind ::
              ReadsReleased(cluster.world, KeyOf(cluster.world.environments[name].providers, kind), FoundAt(found, kind))
  {
    ghost var p := cluster.world.environments[name].providers;
    look := LetGo(cluster, name, at, views, ExecutionSpace, found.executionSpace);
    if !look.Clear? { return; }
    ghost var start := cluster.steps;
    ProvidersExist(start, name, views, ExecutionSpace);
    cluster.Others(others[0]);
    HoldsOn(start, others[0], name, at);
    ListedStays(start, cluster.steps, OfEnvironment(name), views);
    ReadStays(start, others[0], KeyOf(p, ExecutionSpace), found.executionSpace);
    look := LetGo(cluster, name, at, views, LogArea, found.logArea);
    if !look.Clear? { return; }
    ghost var middle := cluster.steps;
    ProvidersExist(middle, name, views, LogArea);
    ProvidersExist(middle, name, views, ExecutionSpace);
    cluster.Others(others[1]);
    HoldsOn(middle, others[1], name, at);
    ListedStays(middle, cluster.steps, OfEnvironment(name), views);
    ReadStays(middle, others[1], KeyOf(p, ExecutionSpace), found.executionSpace);
    ReadStays(middle, others[1], KeyOf(p, LogArea), found.logArea);
    look := LetGo(cluster, name, at, views, Iut, found.iut);
    if look.Clear? {
      forall kind ensures ReadsReleased(cluster.world, KeyOf(p, kind), FoundAt(found, kind)) {
        match kind case Iut => case LogArea => case ExecutionSpace =>
      }
    }
  }

  // ---------------------------------------------------------------- the release of an environment

  lemma {:induction false} EnvironmentStays(steps: seq<Step>, steps': seq<Step>, name: string, at: nat)
    requires steps <= steps' && name in Run(steps).environments && at < |Run(steps).environments[name].life|
    ensures name in Run(steps').environments && at < |Run(steps').environments[name].life|
    ensures Run(steps').environments[name].life[at] == Run(steps).environments[name].life[at]
    ensures Run(steps').environments[name].providers == Run(steps).environments[name].providers
  {
    Reaches(steps, steps');
  }

  /** Creates the release job of an environment for the three providers it names, if all of them
      can be read. */
  method StartEnvironmentRelease(cluster: Cluster, name: string, at: nat, views: seq<JobView>, read: Seen) returns (created: bool)
    requires cluster.Valid() && Holds(cluster.world, name, at) && Releasing(cluster.world.environments[name].life[at])
    requires cluster.world.environments[name].life[at].deleting
    requires Listed(cluster.world, OfEnvironment(name), views) && Announced(views) == Some(Jobs.NoJobs)
    modifies cluster
    ensures cluster.Valid() && old(cluster.steps) <= cluster.steps
    ensures !created ==> cluster.world == old(cluster.world)
    ensures created ==>
              && cluster.world == old(cluster.world).(jobs := cluster.world.jobs)
              && cluster.world.jobs == old(cluster.world).jobs
                 + [ReleaseJob(OfEnvironment(name), KeysOf(cluster.world.environments[name].providers), Jobs.ActiveJob)]
  {
    var p := cluster.world.environments[name].providers;
    created := Sees(cluster.world, p, read, Iut) && Sees(cluster.world, p, read, LogArea) && Sees(cluster.world, p, read, ExecutionSpace);
    if created {
      forall kind ensures Sees(cluster.world, p, read, kind) {
        match kind case Iut => case LogArea => case ExecutionSpace =>
      }
      cluster.Do(CreateReleaseJob(name, at, views, read));
    }
  }

  /** Completes an environment whose release job succeeded, unless a provider still had to be let go. */
  method CompleteEnvironment(cluster: Cluster, name: string, at: nat, views: seq<JobView>, out: Outcome, found: Found, others: seq<seq<Step>>)
    returns (completed: bool)
    requires cluster.Valid() && Holds(cluster.world, name, at) && Releasing(cluster.world.environments[name].life[at])
    requires Listed(cluster.world, OfEnvironment(name), views) && Announced(views) == Some(Jobs.SuccessfulJobs)
    requires |others| == 2 && AllByOthers(others[0], name) && AllByOthers(others[1], name)
    modifies cluster
    ensures cluster.Valid() && old(cluster.steps) <= cluster.steps
    ensures completed ==>
              && name in cluster.world.environments
              && Last(cluster.world.environments[name].life) == Finished(old(cluster.world).environments[name].life[at], out)
              && ReleasedBy(cluster.world, name)
  {
    var look := ReleaseProviders(cluster, name, at, views, found, others);
    if !look.Clear? { return false; }
    EnvironmentStays(old(cluster.steps), cluster.steps, name, at);
    ListedStays(old(cluster.steps), cluster.steps, OfEnvironment(name), views);
    var e := cluster.world.environments[name];
    if e.life[at].active == Finished(e.life[at], out).active { return false; }
    completed := Accepted(e.life, at, Finished(e.life[at], out));
    ghost var n := AnnouncedSuccess(cluster.world, OfEnvironment(name), views);
    cluster.Do(Complete(name, at, views, out, found));
  }

  /** The copy of an environment is the stored version the pass holds. */
  ghost predicate HoldsCopy(w: World, name: string, copy: Fetched)
    reads copy
  {
    Holds(w, name, copy.at) && w.environments[name].life[copy.at] == copy.Value()
  }

  /** Writes a condition into the copy of an environment and the copy back into the store; done
      unless somebody else wrote since the environment was read. */
  method SetEnvironmentActive(cluster: Cluster, name: string, copy: Fetched, views: seq<JobView>, out: Outcome, c: Condition)
    returns (done: bool)
    requires cluster.Valid() && HoldsCopy(cluster.world, name, copy) && Listed(cluster.world, OfEnvironment(name), views)
    requires c.reason != Pending
    requires EnvironmentDecision(copy.Value(), Announced(views), out) == PutActive(copy.Value(), c)
    modifies cluster, copy
    ensures cluster.Valid() && old(cluster.steps) <= cluster.steps
    ensures done ==> HoldsCopy(cluster.world, name, copy) && copy.Value() == old(copy.Value()).(active := Some(c))
    ensures !done ==> cluster.world == old(cluster.world)
  {
    var l := cluster.world.environments[name].life;
    var changed := copy.SetActive(c);
    done := true;
    if changed {
      done := Accepted(l, copy.at, copy.Value());
      cluster.Do(EnvironmentStep(name, copy.at, views, out));
      if done {
        copy.at := |l|;
      } else {
        assert cluster.world.environments == old(cluster.world).environments;
      }
    }
  }

  /** The condition a pass reports for an environment whose release job failed or is running. */
  function ReleaseReport(e: Object, announced: Option<Jobs.JobStatus>, out: Outcome): Option<Condition> {
    if announced == Some(Jobs.FailedJobs) then Some(Condition(False, ReasonOr(e, Failed), out.description))
    else if announced == Some(Jobs.ActiveJobs) then Some(Condition(False, ReasonOr(e, Active), "Release job is running"))
    else None
  }

  /** The environment has a version that differs from `e` in this condition only. */
  ghost predicate Reported(w: World, name: string, e: Object, c: Condition) {
    name in w.environments &&
    exists i: nat :: Readable(w.environments[name].life, i) && w.environments[name].life[i] == e.(active := Some(c))
  }

  /** Reports that the release job could not be created, unless a failure was reported already. */
  method ReportCreationError(cluster: Cluster, name: string, copy: Fetched, views: seq<JobView>, out: Outcome)
    returns (done: bool)
    requires cluster.Valid() && HoldsCopy(cluster.world, name, copy) && Listed(cluster.world, OfEnvironment(name), views)
    requires Releasing(copy.Value()) && copy.deleting && Announced(views) == Some(Jobs.NoJobs) && out.creationError.Some?
    modifies cluster, copy
    ensures cluster.Valid() && old(cluster.steps) <= cluster.steps
    ensures !done ==> cluster.world == old(cluster.world)
    ensures done ==>
              Reported(cluster.world, name, old(copy.Value()),
                       if ReasonIs(old(copy.active), Failed) then old(copy.active).value
                       else Condition(False, ReasonOr(old(copy.Value()), Failed), out.creationError.value))
  {
    ghost var e := copy.Value();
    done := true;
    if !ReasonIs(copy.active, Failed) {
      done := SetEnvironmentActive(cluster, name, copy, views, out,
                                   Condition(False, ReasonOr(copy.Value(), Failed), out.creationError.value));
    }
    if done { assert cluster.world.environments[name].life[copy.at] == e.(active := copy.active); }
  }

  /** A pass over an environment past its initial condition. A release job is created only while
      the environment is being deleted, the environment is completed only after such a job
      succeeded, and a job that failed or is running is reported with the reason that was there
      if the deadline had passed. */
  method ReconcileRelease(cluster: Cluster, name: string, at: nat, views: seq<JobView>, out: Outcome, read: Seen, found: Found, others: seq<seq<Step>>)
    returns (created: bool, completed: bool, done: bool)
    requires cluster.Valid() && Holds(cluster.world, name, at) && Releasing(cluster.world.environments[name].life[at])
    requires Listed(cluster.world, OfEnvironment(name), views)
    requires |others| == 2 && AllByOthers(others[0], name) && AllByOthers(others[1], name)
    modifies cluster
    ensures cluster.Valid() && old(cluster.steps) <= cluster.steps
    ensures created ==> old(cluster.world).environments[name].life[at].deleting && Announced(views) == Some(Jobs.NoJobs)
    ensures created ==> |cluster.world.jobs| == |old(cluster.world).jobs| + 1
    ensures completed ==>
              && ReleasedBy(cluster.world, name) && name in cluster.world.environments
              && Last(cluster.world.environments[name].life).completed
    ensures var e := old(cluster.world).environments[name].life[at];
            var report := ReleaseReport(e, Announced(views), out);
            done && report.Some? ==> Reported(cluster.world, name, e, report.value)
  {
    created, completed, done := false, false, true;
    var copy := new Fetched(cluster.world.environments[name].life[at], at);
    match Announced(views) {
      case None => return;
      case Some(FailedJobs) =>
        done := SetEnvironmentActive(cluster, name, copy, views, out, Condition(False, ReasonOr(copy.Value(), Failed), out.description));
      case Some(ActiveJobs) =>
        done := SetEnvironmentActive(cluster, name, copy, views, out, Condition(False, ReasonOr(copy.Value(), Active), "Release job is running"));
      case Some(SuccessfulJobs) => completed := CompleteEnvironment(cluster, name, at, views, out, found, others);
      case Some(NoJobs) =>
        if !copy.deleting { return; }
        if out.creationError.Some? {
          done := ReportCreationError(cluster, name, copy, views, out);
        } else {
          created := StartEnvironmentRelease(cluster, name, at, views, read);
          if !created {
            done := ReportCreationError(cluster, name, copy, views, out.(creationError := Some("provider not found")));
          }
        }
    }
  }

  /** The deadline check at the end of a pass that is past the deadline: time the environment out,
      or delete it if that was done before. */
  method CheckDeadline(cluster: Cluster, name: string, at: nat, message: string) returns (expired: bool)
    requires cluster.Valid() && name in cluster.world.environments && Readable(cluster.world.environments[name].life, at)
    requires var e := cluster.world.environments[name];
             && !e.life[at].deleting
             && (e.pass == Some(at) || (e.pass.None? && Releasing(e.life[at])))
    modifies cluster
    ensures cluster.Valid() && old(cluster.steps) <= cluster.steps && name in cluster.world.environments
    ensures expired <==> Changes(old(cluster.world).environments[name].life[at].active, Condition(False, DeadlineExceeded, message))
    ensures expired && at == |old(cluster.world).environments[name].life| - 1 ==>
              Last(cluster.world.environments[name].life) == Expired(old(cluster.world).environments[name].life[at], message)
    ensures !expired ==> Last(cluster.world.environments[name].life).deleting
  {
    var copy := new Fetched(cluster.world.environments[name].life[at], at);
    expired := copy.SetActive(Condition(False, DeadlineExceeded, message));
    if expired {
      cluster.Do(Expire(name, at, message));
    } else {
      cluster.Do(DeleteEnvironment(name));
    }
  }
}
