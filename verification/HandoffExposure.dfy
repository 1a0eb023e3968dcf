/**
 What a double release needs. An environment is exposed as long as the pass that initialises it can
 still find it overdue, and from then on if that happened; a resource released by both paths was
 named by an exposed environment, and neither path was closed.
 */
module HandoffExposure {
  import opened Conditions
  import opened Handoff
  import opened HandoffInvariant
  import opened HandoffSteps
  import opened HandoffOwnership
  import opened HandoffTheorems
  import opened HandoffUnclaimed
  import Jobs

  // ---------------------------------------------------------------- the window of an environment

  /** The environment is not initialised yet, or the pass that did it is still under way. */
  predicate Initialising(e: EnvironmentLife) {
    && !Last(e.life).deleting && !Left(Last(e.life))
    && (e.pass == Some(|e.life| - 1) || Last(e.life).active.None? || ReleaseFinalizer !in Last(e.life).finalizers)
  }

  ghost predicate Exposed(w: World, name: string) {
    HasExpired(w, name) || (name in w.environments && Initialising(w.environments[name]))
  }

  lemma {:induction false} PassClosesWindow(w: World, step: Step, name: string)
    requires Inv(w) && name in w.environments && !Initialising(w.environments[name])
    requires step.EnvironmentStep? && step.name == name
    ensures !Initialising(Apply(w, step).environments[name])
  {
    assert EnvironmentOk(w, name);
  }

  lemma {:induction false} OthersCloseWindow(w: World, step: Step, name: string)
    requires Inv(w) && name in w.environments && !Initialising(w.environments[name])
    requires Touches(step, name) && !step.EnvironmentStep?
    ensures !Initialising(Apply(w, step).environments[name])
  {
    assert EnvironmentOk(w, name);
  }

  lemma {:induction false} WindowCloses(w: World, step: Step, name: string)
    requires Inv(w) && name in w.environments && !Initialising(w.environments[name])
    ensures name in Apply(w, step).environments && !Initialising(Apply(w, step).environments[name])
  {
    StepExtends(w, step);
    if !Touches(step, name) { NotTouched(w, step, name); }
    else if step.EnvironmentStep? { PassClosesWindow(w, step, name); }
    else { OthersCloseWindow(w, step, name); }
  }

  lemma {:induction false} ExposureEnds(w: World, step: Step, name: string)
    requires Inv(w) && name in w.environments && !Exposed(w, name)
    ensures name in Apply(w, step).environments && !Exposed(Apply(w, step), name)
  {
    StepExtends(w, step);
    WindowCloses(w, step, name);
    if HasExpired(Apply(w, step), name) {
      OnlyDeadlineExpires(w, step, name);
      FiringNeedsWindow(w, step, name);
    }
  }

  lemma {:induction false} FiringNeedsWindow(w: World, step: Step, name: string)
    requires Inv(w) && FiresPending(w, step, name)
    ensures Initialising(w.environments[name])
  {
    assert EnvironmentOk(w, name);
  }

  /** Once out of its window without having expired, an environment never expires while pending. */
  lemma {:induction false} NeverExposedAgain(steps: seq<Step>, more: seq<Step>, name: string)
    requires name in Run(steps).environments && !Exposed(Run(steps), name)
    ensures name in Run(steps + more).environments && !Exposed(Run(steps + more), name)
  {
    if more == [] {
      assert steps + more == steps;
    } else {
      var init, last := more[..|more| - 1], more[|more| - 1];
      NeverExposedAgain(steps, init, name);
      assert steps + more == steps + init + [last];
      RunSnoc(steps + init, last);
      RunKeeps(steps + init);
      ExposureEnds(Run(steps + init), last, name);
    }
  }

  // ---------------------------------------------------------------- what both releases need

  lemma {:induction false} OwnReleaseNeeds(steps: seq<Step>, more: seq<Step>, key: Key)
    requires key in Run(steps).resources && ReleasedByItself(Run(steps + more), key)
    ensures !EverOwned(Run(steps).resources[key])
    ensures ReleasedByItself(Run(steps), key) || Alive(Run(steps).resources[key])
  {
    var w, w' := Run(steps), Run(steps + more);
    Continued(steps, more);
    OwnReleaseExcludesOwnership(steps + more, key);
    PrefixFacts(w.resources[key], w'.resources[key]);
    if !Alive(w.resources[key]) {
      GoneStays(steps, more, key);
      var n :| 0 <= n < |w'.jobs| && w'.jobs[n].owner == OfResource(key);
      assert JobOk(w', n);
      DoomedWasFinalized(w'.resources[key]);
      RunKeepsOwnSides(steps);
      assert OwnSide(w, key);
    }
  }

  lemma {:induction false} DoomedWasFinalized(l: Life)
    requires EverDoomed(l)
    ensures EverFinalized(l)
  {
    var i :| 0 <= i < |l| && l[i].deleting && !Gone(l[i]) && !OwnedByEnvironment(l[i]);
  }

  ghost predicate Names(w: World, name: string, key: Key) {
    name in w.environments && key in KeysOf(w.environments[name].providers)
  }

  /** With distinct providers one environment at most names a resource. */
  lemma {:induction false} OneName(w: World, key: Key, a: string, b: string)
    requires Distinct(w) && Names(w, a, key) && Names(w, b, key)
    ensures a == b
  {
  }

  lemma {:induction false} EnvironmentReleaseNeeds(steps: seq<Step>, more: seq<Step>, key: Key, name: string)
    requires Names(Run(steps), name, key) && Distinct(Run(steps + more)) && ReleasedByEnvironment(Run(steps + more), key)
    ensures ReleasedByEnvironment(Run(steps), key) || Alive(Run(steps).environments[name].life)
  {
    var w, w' := Run(steps), Run(steps + more);
    Continued(steps, more);
    if !Alive(w.environments[name].life) {
      EnvironmentGoneStays(steps, more, name);
      var n :| 0 <= n < |w'.jobs| && w'.jobs[n].owner.OfEnvironment? && key in w'.jobs[n].covers;
      assert JobOk(w', n);
      OneName(w', key, name, w'.jobs[n].owner.name);
      RunKeeps(steps);
      GoneWasReleased(w, name, key);
    }
  }

  /** An environment that is gone and was once held while being deleted has released. */
  lemma {:induction false} GoneWasReleased(w: World, name: string, key: Key)
    requires Inv(w) && Names(w, name, key) && !Alive(w.environments[name].life) && EverDeleting(w.environments[name].life)
    ensures ReleasedByEnvironment(w, key)
  {
    var l := w.environments[name].life;
    assert EnvironmentOk(w, name);
    var i :| 0 <= i < |l| && l[i].deleting && !Gone(l[i]);
    assert l[i].finalizers <= {ReleaseFinalizer};
    assert ReleaseFinalizer in l[i].finalizers;
    assert EnvironmentMove(l[i], l[|l| - 1]);
    var n :| 0 <= n < |w.jobs| && w.jobs[n].owner == OfEnvironment(name) && w.jobs[n].class_ == Jobs.SuccessfulJob;
    assert JobOk(w, n);
  }

  lemma {:induction false} BothNeedExpiry(steps: seq<Step>, key: Key, name: string)
    requires Names(Run(steps), name, key) && Distinct(Run(steps))
    requires ReleasedByItself(Run(steps), key) && ReleasedByEnvironment(Run(steps), key)
    ensures HasExpired(Run(steps), name)
  {
    var w := Run(steps);
    if NoPendingExpiry(w, key) { SingleReleasePath(steps, key); }
    var other :| Names(w, other, key) && ExpiredPending(w.environments[other].life);
    OneName(w, key, name, other);
  }

  /** The own controller has released the resource, or can still do so. */
  ghost predicate OwnPathOpen(w: World, key: Key) {
    key in w.resources && !EverOwned(w.resources[key]) && (ReleasedByItself(w, key) || Alive(w.resources[key]))
  }

  /** The environment has released the resource, or can still do so without having taken it. */
  ghost predicate EnvironmentPathOpen(w: World, key: Key, name: string) {
    Names(w, name, key) && Exposed(w, name) && (ReleasedByEnvironment(w, key) || Alive(w.environments[name].life))
  }

  ghost predicate ReleasedTwice(w: World, key: Key) { ReleasedByItself(w, key) && ReleasedByEnvironment(w, key) }

  lemma {:induction false} BothNeed(steps: seq<Step>, more: seq<Step>, key: Key, name: string)
    requires key in Run(steps).resources && Names(Run(steps), name, key)
    requires Distinct(Run(steps + more)) && ReleasedTwice(Run(steps + more), key)
    ensures OwnPathOpen(Run(steps), key) && EnvironmentPathOpen(Run(steps), key, name)
  {
    Continued(steps, more);
    OwnReleaseNeeds(steps, more, key);
    EnvironmentReleaseNeeds(steps, more, key, name);
    BothNeedExpiry(steps + more, key, name);
    if !Exposed(Run(steps), name) { NeverExposedAgain(steps, more, name); }
  }
}
