/**
 Ownership is never lost. A dangling reference belongs to an environment that completed, a
 completed environment has a release job that succeeded, and such a job leaves the resources it
 covers deleting, where garbage collection does not touch them any more.
 */
module HandoffOwnership {
  import opened Conditions
  import opened Handoff
  import opened HandoffInvariant
  import opened HandoffSteps
  import Jobs

  // ---------------------------------------------------------------- histories grow with every step

  lemma {:induction false} ResourceExtends(w: World, key: Key, l: Life)
    requires key in w.resources ==> w.resources[key] <= l
    ensures Extends(w, PutResource(w, key, l))
  {
  }

  lemma {:induction false} EnvironmentExtends(w: World, name: string, e: EnvironmentLife)
    requires name in w.environments ==> w.environments[name].life <= e.life && w.environments[name].providers == e.providers
    ensures Extends(w, PutEnvironment(w, name, e))
  {
  }

  lemma {:induction false} JobStepExtends(w: World, step: Step)
    requires Apply(w, step).jobs != w.jobs
    ensures Extends(w, Apply(w, step))
  {
    assert Apply(w, step) == w.(jobs := Apply(w, step).jobs);
  }

  /** The steps that write a resource, by its own controller or from outside. */
  predicate OnResource(step: Step) {
    step.CreateResource? || step.DeleteResource? || step.CollectOwners? || step.ResourceStep?
  }

  lemma {:induction false} ResourceStepExtends(w: World, step: Step)
    requires OnResource(step) && Apply(w, step).jobs == w.jobs
    ensures Extends(w, Apply(w, step))
  {
    var w' := Apply(w, step);
    if step.key in w'.resources { ResourceExtends(w, step.key, w'.resources[step.key]); }
  }

  lemma {:induction false} HandingStepExtends(w: World, step: Step)
    requires step.TakeOwnership? || step.ReleaseProvider?
    ensures Extends(w, Apply(w, step))
  {
    if Enabled(w, step) {
      var key := KeyOf(w.environments[step.name].providers, step.kind);
      ResourceExtends(w, key, Apply(w, step).resources[key]);
    }
  }

  lemma {:induction false} EnvironmentStepExtends(w: World, step: Step)
    requires !OnResource(step) && !step.TakeOwnership? && !step.ReleaseProvider? && Apply(w, step).jobs == w.jobs
    ensures Extends(w, Apply(w, step))
  {
    var w' := Apply(w, step);
    if !step.FinishJob? && step.name in w'.environments {
      EnvironmentExtends(w, step.name, w'.environments[step.name]);
    }
  }

  lemma {:induction false} StepExtends(w: World, step: Step)
    ensures Extends(w, Apply(w, step))
  {
    if Apply(w, step).jobs != w.jobs { JobStepExtends(w, step); }
    else if OnResource(step) { ResourceStepExtends(w, step); }
    else if step.TakeOwnership? || step.ReleaseProvider? { HandingStepExtends(w, step); }
    else { EnvironmentStepExtends(w, step); }
  }

  lemma {:induction false} ExtendsTransitive(a: World, b: World, c: World)
    requires Extends(a, b) && Extends(b, c)
    ensures Extends(a, c)
  {
  }

  lemma {:induction false} RunExtends(steps: seq<Step>, n: nat)
    requires n <= |steps|
    ensures Extends(Run(steps[..n]), Run(steps))
  {
    if n == |steps| {
      assert steps[..n] == steps;
    } else {
      var init := steps[..|steps| - 1];
      RunExtends(init, n);
      assert init[..n] == steps[..n];
      StepExtends(Run(init), steps[|steps| - 1]);
      ExtendsTransitive(Run(steps[..n]), Run(init), Run(steps));
    }
  }

  /** Versions and finished jobs stay what they were as a run goes on. */
  lemma {:induction false} Reaches(steps: seq<Step>, later: seq<Step>)
    requires steps <= later
    ensures Extends(Run(steps), Run(later))
  {
    RunExtends(later, |steps|);
    assert later[..|steps|] == steps;
  }

  /** The steps that may change this environment once it exists. */
  predicate Touches(step: Step, name: string) {
    && (step.EnvironmentStep? || step.EndPass? || step.Expire? || step.Activate? || step.Complete? || step.DeleteEnvironment?)
    && step.name == name
  }

  lemma {:induction false} NotTouched(w: World, step: Step, name: string)
    requires name in w.environments && !Touches(step, name)
    ensures name in Apply(w, step).environments && Apply(w, step).environments[name] == w.environments[name]
  {
  }

  // ---------------------------------------------------------------- what is gone stays gone

  lemma {:induction false} GoneOneStep(w: World, step: Step, key: Key)
    requires key in w.resources && !Alive(w.resources[key])
    ensures key in Apply(w, step).resources && Apply(w, step).resources[key] == w.resources[key]
  {
  }

  lemma {:induction false} GoneStays(steps: seq<Step>, script: seq<Step>, key: Key)
    requires key in Run(steps).resources && !Alive(Run(steps).resources[key])
    ensures key in Run(steps + script).resources && Run(steps + script).resources[key] == Run(steps).resources[key]
  {
    if script == [] {
      assert steps + script == steps;
    } else {
      var init, last := script[..|script| - 1], script[|script| - 1];
      GoneStays(steps, init, key);
      RunSnoc(steps + init, last);
      assert steps + init + [last] == steps + script;
      GoneOneStep(Run(steps + init), last, key);
    }
  }

  lemma {:induction false} EnvironmentGoneOneStep(w: World, step: Step, name: string)
    requires name in w.environments && !Alive(w.environments[name].life)
    ensures name in Apply(w, step).environments && Apply(w, step).environments[name].life == w.environments[name].life
  {
  }

  lemma {:induction false} EnvironmentGoneStays(steps: seq<Step>, script: seq<Step>, name: string)
    requires name in Run(steps).environments && !Alive(Run(steps).environments[name].life)
    ensures name in Run(steps + script).environments
    ensures Run(steps + script).environments[name].life == Run(steps).environments[name].life
  {
    if script == [] {
      assert steps + script == steps;
    } else {
      var init, last := script[..|script| - 1], script[|script| - 1];
      EnvironmentGoneStays(steps, init, name);
      RunSnoc(steps + init, last);
      assert steps + init + [last] == steps + script;
      EnvironmentGoneOneStep(Run(steps + init), last, name);
    }
  }

  // ---------------------------------------------------------------- released means deleting

  ghost predicate Released(w: World, n: int) {
    0 <= n < |w.jobs| && w.jobs[n].owner.OfEnvironment? && w.jobs[n].class_ == Jobs.SuccessfulJob
  }

  /** What a release job of an environment covered is being deleted, or gone, once it succeeded. */
  ghost predicate ReleasedIsDeleting(w: World) {
    forall n :: Released(w, n) ==> AllDeleting(w, w.jobs[n].covers)
  }

  lemma {:induction false} DeletingStays(l: Life, i: nat)
    requires ResourceHistory(l) && i < |l| && l[i].deleting
    ensures Last(l).deleting
    decreases |l| - i
  {
    if i == |l| - 1 {
    } else {
      assert MoveAt(l, i);
      DeletingStays(l, i + 1);
    }
  }

  lemma {:induction false} AllDeletingStays(w: World, w': World, keys: set<Key>)
    requires AllDeleting(w, keys) && Extends(w, w') && Inv(w')
    ensures AllDeleting(w', keys)
  {
    forall key | key in keys ensures key in w'.resources && Last(w'.resources[key]).deleting {
      assert ResourceOk(w', key);
      DeletingStays(w'.resources[key], |w.resources[key]| - 1);
    }
  }

  lemma {:induction false} StepReleases(w: World, step: Step, n: nat)
    requires Released(Apply(w, step), n)
    ensures AllDeleting(w, Apply(w, step).jobs[n].covers) || Released(w, n)
    ensures n < |w.jobs| && w.jobs[n].covers == Apply(w, step).jobs[n].covers
  {
  }

  lemma {:induction false} ReleasedStepKeeps(w: World, step: Step)
    requires Inv(w) && ReleasedIsDeleting(w)
    ensures ReleasedIsDeleting(Apply(w, step))
  {
    var w' := Apply(w, step);
    StepExtends(w, step);
    StepKeeps(w, step);
    forall n | Released(w', n) ensures AllDeleting(w', w'.jobs[n].covers) {
      StepReleases(w, step, n);
      AllDeletingStays(w, w', w'.jobs[n].covers);
    }
  }

  // ---------------------------------------------------------------- nothing to collect

  /** An environment that is gone has had its providers deleted. */
  lemma {:induction false} DanglingIsDeleting(w: World, key: Key, ref: OwnerRef)
    requires Inv(w) && ReleasedIsDeleting(w) && key in w.resources && ref in Last(w.resources[key]).owners && Dangling(w, ref)
    ensures Last(w.resources[key]).deleting
  {
    var l := w.resources[key];
    assert ResourceOk(w, key) && RefsOk(w, key, l[|l| - 1]);
    var r :| 0 <= r < |Last(l).owners| && Last(l).owners[r] == ref;
    assert RefOk(w, key, l[|l| - 1].owners[r]);
    var e := w.environments[ref.name].life;
    assert EnvironmentOk(w, ref.name);
    var i :| 0 <= i < |e| && ReleaseFinalizer in e[i].finalizers && e[i].active.Some?;
    assert EnvironmentMove(e[i], e[|e| - 1]);
    var n :| 0 <= n < |w.jobs| && w.jobs[n].owner == OfEnvironment(ref.name) && w.jobs[n].class_ == Jobs.SuccessfulJob;
    assert Released(w, n) && JobOk(w, n);
  }

  /** Garbage collection never finds a reference to take off. */
  lemma {:induction false} NothingToCollect(w: World, key: Key)
    requires Inv(w) && ReleasedIsDeleting(w)
    ensures !Enabled(w, CollectOwners(key))
  {
    if key in w.resources && !Last(w.resources[key]).deleting {
      forall i | 0 <= i < |Last(w.resources[key]).owners| ensures !Dangling(w, Last(w.resources[key]).owners[i]) {
        if Dangling(w, Last(w.resources[key]).owners[i]) { DanglingIsDeleting(w, key, Last(w.resources[key]).owners[i]); }
      }
    }
  }

  // ---------------------------------------------------------------- owners only grow

  ghost predicate OwnersGrow(l: Life) {
    forall i :: 0 <= i < |l| - 1 ==> GrowsAt(l, i)
  }

  ghost predicate GrowsAt(l: Life, i: int)
    requires 0 <= i < |l| - 1
  {
    l[i].owners <= l[i + 1].owners
  }

  lemma {:induction false} OwnersAppended(l: Life, o: Object)
    requires OwnersGrow(l) && Last(l).owners <= o.owners
    ensures OwnersGrow(l + [o])
  {
    var l' := l + [o];
    forall i | 0 <= i < |l'| - 1 ensures GrowsAt(l', i) {
      if i < |l| - 1 { assert GrowsAt(l, i); }
    }
  }

  lemma {:induction false} UpdateGrows(l: Life, at: nat, o: Object)
    requires OwnersGrow(l) && (Accepted(l, at, o) ==> Last(l).owners <= o.owners)
    ensures OwnersGrow(Updated(l, at, o))
  {
    if Accepted(l, at, o) { OwnersAppended(l, o); }
  }

  ghost predicate AllGrow(w: World) {
    forall key :: key in w.resources ==> OwnersGrow(w.resources[key])
  }

  lemma {:induction false} StepGrows(w: World, step: Step)
    requires AllGrow(w) && Enabled(w, step) && !step.CollectOwners?
    ensures AllGrow(Effect(w, step))
  {
    match step
    case DeleteResource(key) =>
      var l := w.resources[key];
      if Alive(l) && !Last(l).deleting { OwnersAppended(l, Last(l).(deleting := true)); }
    case ResourceStep(key, at, views, out) =>
      var d := ResourceDecision(key.kind, w.resources[key][at], Announced(views), out);
      if d.Put? { UpdateGrows(w.resources[key], at, d.version); }
    case TakeOwnership(name, at, kind, readAt) =>
      var key := KeyOf(w.environments[name].providers, kind);
      UpdateGrows(w.resources[key], readAt, Taken(w.resources[key][readAt], name));
    case ReleaseProvider(name, _, _, kind, readAt) =>
      var key := KeyOf(w.environments[name].providers, kind);
      UpdateGrows(w.resources[key], readAt, Let(w.resources[key][readAt]));
    case _ =>
  }

  ghost predicate OwnershipKept(w: World) { Inv(w) && ReleasedIsDeleting(w) && AllGrow(w) }

  lemma {:induction false} OwnershipStepKeeps(w: World, step: Step)
    requires OwnershipKept(w)
    ensures OwnershipKept(Apply(w, step))
  {
    StepKeeps(w, step);
    ReleasedStepKeeps(w, step);
    if step.CollectOwners? { NothingToCollect(w, step.key); }
    if Enabled(w, step) { StepGrows(w, step); }
  }

  /** In every run a resource keeps the owners it got. */
  lemma {:induction false} RunKeepsOwners(steps: seq<Step>)
    ensures OwnershipKept(Run(steps))
  {
    if steps == [] {
    } else {
      RunKeepsOwners(steps[..|steps| - 1]);
      OwnershipStepKeeps(Run(steps[..|steps| - 1]), steps[|steps| - 1]);
    }
  }

  /** Ownership by an environment is never lost. */
  lemma {:induction false} StaysOwned(l: Life, i: nat, j: nat)
    requires OwnersGrow(l) && i <= j < |l| && OwnedByEnvironment(l[i])
    ensures OwnedByEnvironment(l[j])
  {
    if i == j {
    } else {
      StaysOwned(l, i, j - 1);
      assert GrowsAt(l, j - 1);
      var r :| 0 <= r < |l[j - 1].owners| && l[j - 1].owners[r].kind == EnvironmentOwner;
      assert l[j].owners[r] == l[j - 1].owners[r];
    }
  }
}
