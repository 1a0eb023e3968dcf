/**
 What every run of the handoff protocol guarantees, and the runs that show which
 conditions are needed.
 */
module HandoffTheorems {
  import opened Conditions
  import opened Handoff
  import opened HandoffInvariant
  import opened HandoffSteps
  import opened HandoffOwnership
  import Jobs

  // ---------------------------------------------------------------- release by one path only

  /** The resource's own controller has created a release job for it. */
  ghost predicate ReleasedByItself(w: World, key: Key) {
    exists n :: 0 <= n < |w.jobs| && w.jobs[n].owner == OfResource(key)
  }

  /** Some environment has created a release job that covers it. */
  ghost predicate ReleasedByEnvironment(w: World, key: Key) {
    exists n :: 0 <= n < |w.jobs| && w.jobs[n].owner.OfEnvironment? && key in w.jobs[n].covers
  }

  /** No environment naming this resource ran out of time before it took its providers. */
  ghost predicate NoPendingExpiry(w: World, key: Key) {
    forall name :: name in w.environments && key in KeysOf(w.environments[name].providers) ==>
      !ExpiredPending(w.environments[name].life)
  }

  lemma {:induction false} FinalizerMeansOwned(l: Life, j: nat)
    requires ResourceHistory(l) && OwnersGrow(l) && j < |l| && ReleaseFinalizer in l[j].finalizers
    ensures OwnedByEnvironment(l[j])
  {
    if j == 0 {
    } else {
      assert MoveAt(l, j - 1);
      if ReleaseFinalizer in l[j - 1].finalizers {
        FinalizerMeansOwned(l, j - 1);
        StaysOwned(l, j - 1, j);
      }
    }
  }

  /** Deletion before ownership closes the door: no environment can take the object later. */
  lemma {:induction false} DoomedStaysUnowned(l: Life, i: nat, j: nat)
    requires ResourceHistory(l) && OwnersGrow(l) && i <= j < |l|
    requires l[i].deleting && !OwnedByEnvironment(l[i])
    ensures l[j].deleting && !OwnedByEnvironment(l[j])
  {
    if i == j {
    } else {
      DoomedStaysUnowned(l, i, j - 1);
      assert MoveAt(l, j - 1);
      if ReleaseFinalizer in l[j - 1].finalizers { FinalizerMeansOwned(l, j - 1); }
    }
  }

  /** In every run, with snapshots of any age: a resource whose own controller created a
      release job for it was never owned by an environment, and never will be. */
  lemma {:induction false} OwnReleaseExcludesOwnership(steps: seq<Step>, key: Key)
    requires ReleasedByItself(Run(steps), key)
    ensures key in Run(steps).resources && !EverOwned(Run(steps).resources[key])
  {
    var w := Run(steps);
    RunKeepsOwners(steps);
    var n :| 0 <= n < |w.jobs| && w.jobs[n].owner == OfResource(key);
    assert JobOk(w, n) && ResourceOk(w, key);
    var l := w.resources[key];
    var i :| 0 <= i < |l| && l[i].deleting && !Gone(l[i]) && !OwnedByEnvironment(l[i]);
    forall j | 0 <= j < |l| ensures !OwnedByEnvironment(l[j]) {
      if j <= i { if OwnedByEnvironment(l[j]) { StaysOwned(l, j, i); } }
      else { DoomedStaysUnowned(l, i, j); }
    }
  }

  /** In every run, an environment's release job only covers resources that some
      environment had already taken. */
  lemma {:induction false} EnvironmentReleaseNeedsOwnership(steps: seq<Step>, key: Key)
    requires NoPendingExpiry(Run(steps), key) && ReleasedByEnvironment(Run(steps), key)
    ensures key in Run(steps).resources && EverOwned(Run(steps).resources[key])
  {
    var w := Run(steps);
    RunKeeps(steps);
    var n :| 0 <= n < |w.jobs| && w.jobs[n].owner.OfEnvironment? && key in w.jobs[n].covers;
    var name := w.jobs[n].owner.name;
    assert JobOk(w, n);
    assert EnvironmentOk(w, name);
    assert AllOnceOwned(w, w.environments[name].providers);
  }

  /** Every resource is released by at most one path. */
  lemma {:induction false} SingleReleasePath(steps: seq<Step>, key: Key)
    requires NoPendingExpiry(Run(steps), key)
    ensures !(ReleasedByItself(Run(steps), key) && ReleasedByEnvironment(Run(steps), key))
  {
    if ReleasedByItself(Run(steps), key) && ReleasedByEnvironment(Run(steps), key) {
      OwnReleaseExcludesOwnership(steps, key);
      EnvironmentReleaseNeedsOwnership(steps, key);
    }
  }

  // ---------------------------------------------------------------- no unguarded moment

  /** In every run, once a resource has had a finalizer it keeps the provider or the
      release finalizer until a release job covering it has completed; in particular it
      cannot disappear before that. No condition on deadlines, sharing or collection. */
  lemma {:induction false} NeverUnguarded(steps: seq<Step>, key: Key)
    requires key in Run(steps).resources && EverFinalized(Run(steps).resources[key])
    ensures Last(Run(steps).resources[key]).finalizers != {} || Covered(Run(steps), key)
    ensures !Alive(Run(steps).resources[key]) ==> Covered(Run(steps), key)
  {
    RunKeeps(steps);
    assert ResourceOk(Run(steps), key);
  }

  // ---------------------------------------------------------------- active environments hold their providers

  ghost predicate Distinct(w: World) {
    forall a, b :: a in w.environments && b in w.environments && a != b ==>
      KeysOf(w.environments[a].providers) !! KeysOf(w.environments[b].providers)
  }

  ghost predicate HeldKey(w: World, key: Key) {
    key in w.resources && Alive(w.resources[key]) && ReleaseFinalizer in Last(w.resources[key]).finalizers
  }

  /** An environment past its initial condition and not being deleted has all three of its
      providers in the store, each with the release finalizer. */
  ghost predicate Holding(w: World, name: string)
    requires name in w.environments
  {
    var e := w.environments[name];
    Alive(e.life) && Left(Last(e.life)) && !Last(e.life).deleting ==>
      forall key :: key in KeysOf(e.providers) ==> HeldKey(w, key)
  }

  lemma {:induction false} HoldingUnlessExpired(w: World, name: string)
    requires Inv(w) && Distinct(w) && name in w.environments && !ExpiredPending(w.environments[name].life)
    ensures Holding(w, name)
  {
    var e := w.environments[name];
    assert EnvironmentOk(w, name);
    EverLeftLast(e.life);
    if Alive(e.life) && Left(Last(e.life)) && !Last(e.life).deleting {
      forall key | key in KeysOf(e.providers) ensures HeldKey(w, key) {
        assert ResourceOk(w, key);
        if n :| Completes(w, n, key) && w.jobs[n].owner.OfEnvironment? {
          JobNamesDeleted(w, name, key, n);
          assert false;
        }
      }
    }
  }

  lemma {:induction false} JobNamesDeleted(w: World, name: string, key: Key, n: nat)
    requires Inv(w) && Distinct(w) && name in w.environments && key in KeysOf(w.environments[name].providers)
    requires n < |w.jobs| && w.jobs[n].owner.OfEnvironment? && key in w.jobs[n].covers
    ensures Last(w.environments[name].life).deleting
  {
    assert JobOk(w, n);
    assert EnvironmentOk(w, name);
    var other := w.jobs[n].owner.name;
    assert other == name;
    var l := w.environments[name].life;
    var i :| 0 <= i < |l| && l[i].deleting && !Gone(l[i]);
    if i < |l| - 1 { assert EnvironmentMove(l[i], l[|l| - 1]); }
  }

  /** Some environment that names the resource once took it. */
  lemma {:induction false} TakerOf(w: World, key: Key) returns (name: string)
    requires Inv(w) && key in w.resources && EverOwned(w.resources[key])
    ensures name in w.environments && key in KeysOf(w.environments[name].providers)
    ensures !Untouched(w.resources[key], name)
  {
    assert ResourceOk(w, key);
    var l := w.resources[key];
    var i :| 0 <= i < |l| && OwnedByEnvironment(l[i]);
    var r :| 0 <= r < |l[i].owners| && l[i].owners[r].kind == EnvironmentOwner;
    assert RefsOk(w, key, l[i]) && RefOk(w, key, l[i].owners[r]);
    name := l[i].owners[r].name;
  }

  /** While a pass holds a freshly initialised environment, none of its providers carries
      the release finalizer. */
  lemma {:induction false} NothingHeldDuringPass(w: World, name: string, key: Key)
    requires Inv(w) && Distinct(w) && name in w.environments && w.environments[name].pass.Some?
    requires key in KeysOf(w.environments[name].providers)
    ensures !HeldKey(w, key)
  {
    assert PassOk(w, name);
    if HeldKey(w, key) {
      assert ResourceOk(w, key);
      var taker := TakerOf(w, key);
    }
  }

  ghost predicate FiresPending(w: World, step: Step, name: string) {
    && step.Expire? && step.name == name && Enabled(w, step)
    && w.environments[name].pass == Some(step.at)
    && Accepted(w.environments[name].life, step.at, Expired(w.environments[name].life[step.at], step.message))
  }

  /** Firing the deadline on a pending environment breaks the promise at once. */
  lemma {:induction false} PendingExpiryBreaks(w: World, step: Step, name: string)
    requires Inv(w) && Distinct(w) && FiresPending(w, step, name)
    ensures !Holding(Apply(w, step), name)
  {
    var e := w.environments[name];
    var key := KeyOf(e.providers, Iut);
    NothingHeldDuringPass(w, name, key);
    var w' := Apply(w, step);
    assert Last(w'.environments[name].life) == Expired(e.life[step.at], step.message);
    assert w'.resources == w.resources;
    assert !HeldKey(w', key);
    assert key in KeysOf(w'.environments[name].providers);
  }

  lemma {:induction false} ExpiryAppended(l: Life, o: Object)
    ensures ExpiredPending(l + [o]) <==> ExpiredPending(l) || (!Left(Last(l)) && ReasonIs(o.active, DeadlineExceeded))
  {
    var l' := l + [o];
    if i :| 0 <= i < |l'| - 1 && PendingExpiry(l', i) {
      if i < |l| - 1 { assert PendingExpiry(l, i); }
    }
    if i :| 0 <= i < |l| - 1 && PendingExpiry(l, i) { assert PendingExpiry(l', i); }
    if !Left(Last(l)) && ReasonIs(o.active, DeadlineExceeded) { assert PendingExpiry(l', |l| - 1); }
  }

  ghost predicate HasExpired(w: World, name: string) {
    name in w.environments && ExpiredPending(w.environments[name].life)
  }

  /** No other step can make an environment expire while pending. */
  lemma {:induction false} OnlyDeadlineExpires(w: World, step: Step, name: string)
    requires HasExpired(Apply(w, step), name) && !HasExpired(w, name)
    ensures FiresPending(w, step, name)
  {
    assert Enabled(w, step);
    if name in w.environments {
      var e := w.environments[name];
      match step
      case EnvironmentStep(_, at, views, out) =>
        var d := EnvironmentDecision(e.life[at], Announced(views), out);
        ExpiryAppended(e.life, d.version);
      case Expire(_, at, message) => ExpiryAppended(e.life, Expired(e.life[at], message));
      case Activate(_, at, _) => ExpiryAppended(e.life, Activated(e.life[at]));
      case Complete(_, at, _, out, _) => ExpiryAppended(e.life, Finished(e.life[at], out));
      case DeleteEnvironment(_) => ExpiryAppended(e.life, Last(e.life).(deleting := true));
      case _ =>
    }
  }

  // ---------------------------------------------------------------- whole runs

  lemma {:induction false} DistinctBefore(w: World, w': World)
    requires Extends(w, w') && Distinct(w')
    ensures Distinct(w)
  {
  }

  ghost predicate HoldingAt(steps: seq<Step>, n: nat, name: string)
    requires n <= |steps|
  {
    name in Run(steps[..n]).environments ==> Holding(Run(steps[..n]), name)
  }

  lemma {:induction false} FindExpiry(steps: seq<Step>, name: string) returns (n: nat)
    requires Distinct(Run(steps)) && HasExpired(Run(steps), name)
    ensures n <= |steps| && !HoldingAt(steps, n, name)
  {
    var init := steps[..|steps| - 1];
    var w := Run(init);
    StepExtends(w, steps[|steps| - 1]);
    DistinctBefore(w, Run(steps));
    if HasExpired(w, name) {
      n := FindExpiry(init, name);
      assert init[..n] == steps[..n];
    } else {
      RunKeeps(init);
      OnlyDeadlineExpires(w, steps[|steps| - 1], name);
      PendingExpiryBreaks(w, steps[|steps| - 1], name);
      n := |steps|;
      assert steps[..n] == steps;
    }
  }

  /** Exactly when an environment keeps its promise: it holds its three providers at every
      moment of a run if and only if its deadline never fired while it was pending. */
  lemma {:induction false} HoldingExactly(steps: seq<Step>, name: string)
    requires Distinct(Run(steps))
    ensures (forall n :: 0 <= n <= |steps| ==> HoldingAt(steps, n, name)) <==> !HasExpired(Run(steps), name)
  {
    if HasExpired(Run(steps), name) {
      var n := FindExpiry(steps, name);
    } else {
      forall n | 0 <= n <= |steps| ensures HoldingAt(steps, n, name) {
        var w := Run(steps[..n]);
        RunKeeps(steps[..n]);
        RunExtends(steps, n);
        DistinctBefore(w, Run(steps));
        if name in w.environments {
          PrefixFacts(w.environments[name].life, Run(steps).environments[name].life);
          HoldingUnlessExpired(w, name);
        }
      }
    }
  }

  // ---------------------------------------------------------------- ordered teardown

  ghost predicate HasCompleted(w: World, name: string) {
    name in w.environments && exists i :: 0 <= i < |w.environments[name].life| && w.environments[name].life[i].completed
  }

  ghost predicate LostFinalizer(l: Life) {
    exists i, j :: 0 <= i < j < |l| && ReleaseFinalizer in l[i].finalizers && ReleaseFinalizer !in l[j].finalizers
  }

  ghost predicate CompletesAt(steps: seq<Step>, n: nat, name: string)
    requires n < |steps|
  {
    steps[n].Complete? && steps[n].name == name && Enabled(Run(steps[..n]), steps[n])
  }

  lemma {:induction false} NewVersionCompleted(l: Life, l': Life)
    requires l <= l' && |l'| <= |l| + 1
    requires (exists i :: 0 <= i < |l'| && l'[i].completed) && !exists i :: 0 <= i < |l| && l[i].completed
    ensures Last(l').completed && !Last(l).completed && |l'| == |l| + 1
  {
    assert forall i :: 0 <= i < |l| ==> l'[i] == l[i];
    assert Last(l) == l[|l| - 1];
  }

  lemma {:induction false} NewEnvironmentNotCompleted(w: World, step: Step, name: string)
    requires name !in w.environments
    ensures !HasCompleted(Apply(w, step), name)
  {
  }

  lemma {:induction false} OnlyCompleteCompletes(w: World, step: Step, name: string)
    requires HasCompleted(Apply(w, step), name) && !HasCompleted(w, name)
    ensures step.Complete? && step.name == name && Enabled(w, step)
  {
    if name !in w.environments {
      NewEnvironmentNotCompleted(w, step, name);
    } else if !Touches(step, name) {
      NotTouched(w, step, name);
    } else {
      NewVersionCompleted(w.environments[name].life, Apply(w, step).environments[name].life);
    }
  }

  /** Step `n` of the run is the one that completes the environment. */
  ghost predicate FirstCompletesAt(steps: seq<Step>, n: nat, name: string) {
    && n < |steps| && CompletesAt(steps, n, name) && !HasCompleted(Run(steps[..n]), name)
    && HasCompleted(Apply(Run(steps[..n]), steps[n]), name)
  }

  lemma {:induction false} CompletesEarlier(steps: seq<Step>, n: nat, name: string)
    requires steps != [] && FirstCompletesAt(steps[..|steps| - 1], n, name)
    ensures FirstCompletesAt(steps, n, name)
  {
    assert steps[..|steps| - 1][..n] == steps[..n];
  }

  lemma {:induction false} FindCompletion(steps: seq<Step>, name: string) returns (n: nat)
    requires HasCompleted(Run(steps), name)
    ensures FirstCompletesAt(steps, n, name)
  {
    var init := steps[..|steps| - 1];
    if HasCompleted(Run(init), name) {
      n := FindCompletion(init, name);
      CompletesEarlier(steps, n, name);
    } else {
      OnlyCompleteCompletes(Run(init), steps[|steps| - 1], name);
      n := |steps| - 1;
    }
  }

  lemma {:induction false} LostOnlyWhenCompleted(w: World, name: string)
    requires Inv(w) && name in w.environments && LostFinalizer(w.environments[name].life)
    ensures HasCompleted(w, name)
  {
    var l := w.environments[name].life;
    assert EnvironmentOk(w, name);
    var i, j :| 0 <= i < j < |l| && ReleaseFinalizer in l[i].finalizers && ReleaseFinalizer !in l[j].finalizers;
    assert EnvironmentMove(l[i], l[j]);
  }

  /** An environment loses its finalizer only after a pass that saw its release job
      complete and none of its three providers with the release finalizer. */
  lemma {:induction false} TeardownOrdered(steps: seq<Step>, name: string) returns (n: nat)
    requires name in Run(steps).environments && LostFinalizer(Run(steps).environments[name].life)
    ensures FirstCompletesAt(steps, n, name) && ReleasedBy(Run(steps[..n]), name)
    ensures forall kind :: ReadsReleased(Run(steps[..n]), KeyOf(Run(steps[..n]).environments[name].providers, kind),
                                         FoundAt(steps[n].found, kind))
  {
    RunKeeps(steps);
    LostOnlyWhenCompleted(Run(steps), name);
    n := FindCompletion(steps, name);
    var m := AnnouncedSuccess(Run(steps[..n]), OfEnvironment(name), steps[n].views);
  }

  lemma {:induction false} NeverTakenAgain(l: Life, i: nat, j: nat)
    requires ResourceHistory(l) && OwnersGrow(l) && i <= j < |l|
    requires OwnedByEnvironment(l[i]) && ReleaseFinalizer !in l[i].finalizers
    ensures ReleaseFinalizer !in l[j].finalizers
  {
    if i == j {
    } else {
      NeverTakenAgain(l, i, j - 1);
      StaysOwned(l, i, j - 1);
      assert MoveAt(l, j - 1);
    }
  }

  lemma {:induction false} FinalizersShrink(l: Life, i: nat, j: nat)
    requires ResourceHistory(l) && i <= j < |l| && l[i].deleting
    ensures l[j].deleting && l[j].finalizers <= l[i].finalizers
  {
    if i == j {
    } else {
      FinalizersShrink(l, i, j - 1);
      assert MoveAt(l, j - 1);
    }
  }

  /** The release finalizer is on the newest version of the resource. */
  ghost predicate Finalized(w: World, key: Key) {
    key in w.resources && ReleaseFinalizer in Last(w.resources[key]).finalizers
  }

  lemma {:induction false} ReleasedDeletes(steps: seq<Step>, name: string, key: Key)
    requires name in Run(steps).environments && ReleasedBy(Run(steps), name)
    requires key in KeysOf(Run(steps).environments[name].providers)
    ensures key in Run(steps).resources && Last(Run(steps).resources[key]).deleting
  {
    var w := Run(steps);
    RunKeepsOwners(steps);
    var n :| 0 <= n < |w.jobs| && w.jobs[n].owner == OfEnvironment(name) && w.jobs[n].class_ == Jobs.SuccessfulJob;
    assert Released(w, n) && JobOk(w, n);
  }

  lemma {:induction false} StaysOff(w: World, w': World, key: Key)
    requires Inv(w') && Extends(w, w') && key in w.resources && Last(w.resources[key]).deleting && !Finalized(w, key)
    ensures !Finalized(w', key)
  {
    assert ResourceOk(w', key);
    var l := w'.resources[key];
    FinalizersShrink(l, |w.resources[key]| - 1, |l| - 1);
  }

  lemma {:induction false} Continued(steps: seq<Step>, more: seq<Step>)
    ensures Extends(Run(steps), Run(steps + more)) && OwnershipKept(Run(steps + more))
  {
    assert (steps + more)[..|steps|] == steps;
    RunExtends(steps + more, |steps|);
    RunKeepsOwners(steps + more);
  }

  /** After the release job of an environment succeeded, the release finalizer is off a provider
      for good exactly when it is off. */
  lemma {:induction false} OffForGoodExactly(steps: seq<Step>, name: string, key: Key)
    requires name in Run(steps).environments && ReleasedBy(Run(steps), name)
    requires key in KeysOf(Run(steps).environments[name].providers)
    ensures (forall more :: !Finalized(Run(steps + more), key)) <==> !Finalized(Run(steps), key)
  {
    ReleasedDeletes(steps, name, key);
    if Finalized(Run(steps), key) {
      assert steps + [] == steps;
    } else {
      forall more ensures !Finalized(Run(steps + more), key) {
        Continued(steps, more);
        StaysOff(Run(steps), Run(steps + more), key);
      }
    }
  }

  /** A read that shows what happens to the release finalizer: the provider was not there, or
      being deleted, or in the hands of an environment. */
  ghost predicate Conclusive(w: World, key: Key, read: Option<nat>) {
    read.None? ||
    (ReadableKey(w, key, read.value) &&
     (OwnedByEnvironment(w.resources[key][read.value]) || w.resources[key][read.value].deleting))
  }

  lemma {:induction false} ConclusiveReadIsOff(w: World, key: Key, read: Option<nat>)
    requires OwnershipKept(w) && key in w.resources && ReadsReleased(w, key, read) && Conclusive(w, key, read)
    ensures !Finalized(w, key)
  {
    var l := w.resources[key];
    assert ResourceOk(w, key);
    if read.Some? {
      if OwnedByEnvironment(l[read.value]) { NeverTakenAgain(l, read.value, |l| - 1); }
      else { FinalizersShrink(l, read.value, |l| - 1); }
    }
  }

  /** A completing pass leaves a provider without the release finalizer for good exactly when the
      finalizer was off at that moment; and it was, if the pass read the provider as it was
      after the takeover or after its deletion, or did not find it any more. */
  lemma {:induction false} CompletionLeavesNoFinalizer(steps: seq<Step>, n: nat, name: string, kind: Kind)
    requires n < |steps| && CompletesAt(steps, n, name)
    ensures var w := Run(steps[..n]);
            var key := KeyOf(w.environments[name].providers, kind);
            && ((forall more :: !Finalized(Run(steps[..n] + more), key)) <==> !Finalized(w, key))
            && (Conclusive(w, key, FoundAt(steps[n].found, kind)) ==> !Finalized(w, key))
  {
    var w := Run(steps[..n]);
    var key := KeyOf(w.environments[name].providers, kind);
    RunKeepsOwners(steps[..n]);
    var m := AnnouncedSuccess(w, OfEnvironment(name), steps[n].views);
    ReleasedDeletes(steps[..n], name, key);
    OffForGoodExactly(steps[..n], name, key);
    assert ReadsReleased(w, key, FoundAt(steps[n].found, kind));
    if Conclusive(w, key, FoundAt(steps[n].found, kind)) {
      ConclusiveReadIsOff(w, key, FoundAt(steps[n].found, kind));
    }
  }
}
