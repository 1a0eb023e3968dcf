/**
 Resources no environment ever took: what their own controller can have done to them, and that it
 can always still release one that is in the store.
 */
module HandoffUnclaimed {
  import opened Conditions
  import opened Handoff
  import opened HandoffInvariant
  import opened HandoffSteps
  import opened HandoffOwnership
  import opened HandoffTheorems
  import Jobs

  /** A version from which a pass of the own controller starts a release job. */
  predicate Startable(o: Object) {
    o.deleting && !Gone(o) && !o.completed && o.active.Some? && !ReasonIs(o.active, Failed)
  }

  ghost predicate OwnVersion(w: World, key: Key, o: Object) {
    && (o.completed ==> ReleasedByItself(w, key))
    && (!o.deleting ==> !o.completed && !ReasonIs(o.active, Failed))
    && (ProviderFinalizer in o.finalizers ==> o.active.Some?)
    && ReleaseFinalizer !in o.finalizers
  }

  ghost predicate OnceStartable(l: Life) { exists i :: 0 <= i < |l| && Startable(l[i]) }

  /** What holds of a resource as long as no environment took it. */
  ghost predicate OwnSide(w: World, key: Key)
    requires key in w.resources
  {
    var l := w.resources[key];
    !EverOwned(l) ==>
      && (forall i :: 0 <= i < |l| ==> OwnVersion(w, key, l[i]))
      && (Last(l).deleting && Alive(l) ==> OnceStartable(l))
      && (EverFinalized(l) && Last(l).finalizers == {} ==> ReleasedByItself(w, key))
  }

  ghost predicate OwnSides(w: World) { forall key :: key in w.resources ==> OwnSide(w, key) }

  lemma {:induction false} OwnSideFrame(w: World, w': World, key: Key)
    requires Extends(w, w') && key in w.resources && OwnSide(w, key) && w'.resources[key] == w.resources[key]
    ensures OwnSide(w', key)
  {
    StaysReleased(w, w', key);
    var l := w.resources[key];
    if !EverOwned(l) {
      forall i | 0 <= i < |l| ensures OwnVersion(w', key, l[i]) { assert OwnVersion(w, key, l[i]); }
    }
  }

  lemma {:induction false} StaysReleased(w: World, w': World, key: Key)
    requires Extends(w, w')
    ensures ReleasedByItself(w, key) ==> ReleasedByItself(w', key)
    ensures ReleasedByEnvironment(w, key) ==> ReleasedByEnvironment(w', key)
  {
    if n :| 0 <= n < |w.jobs| && w.jobs[n].owner == OfResource(key) { assert w'.jobs[n].owner == OfResource(key); }
    if n :| 0 <= n < |w.jobs| && w.jobs[n].owner.OfEnvironment? && key in w.jobs[n].covers {
      assert w'.jobs[n].owner.OfEnvironment? && key in w'.jobs[n].covers;
    }
  }

  /** A new version that keeps to the rules. */
  ghost predicate Follows(w: World, key: Key, o: Object)
    requires key in w.resources
  {
    var v := Last(w.resources[key]);
    OwnVersion(w, key, v) ==>
      && OwnVersion(w, key, o)
      && (v.deleting ==> o.deleting)
      && (o.deleting && !Gone(o) && !v.deleting ==> Startable(o))
      && (v.finalizers != {} && o.finalizers == {} ==> ReleasedByItself(w, key))
  }

  lemma {:induction false} OwnSideAppended(w: World, key: Key, o: Object)
    requires key in w.resources && OwnSide(w, key) && Alive(w.resources[key]) && Follows(w, key, o)
    ensures OwnSide(PutResource(w, key, w.resources[key] + [o]), key)
  {
    var l := w.resources[key];
    var l' := l + [o];
    var w' := PutResource(w, key, l');
    assert l <= l' && w'.jobs == w.jobs;
    PrefixFacts(l, l');
    if !EverOwned(l') {
      assert OwnVersion(w, key, l[|l| - 1]);
      forall i | 0 <= i < |l'| ensures OwnVersion(w', key, l'[i]) {
        if i < |l| { assert OwnVersion(w, key, l[i]); }
      }
      StartableAppended(l, o);
      if EverFinalized(l') && o.finalizers == {} { FinalizedBefore(l, o); }
    }
  }

  lemma {:induction false} StartableAppended(l: Life, o: Object)
    ensures OnceStartable(l) || Startable(o) ==> OnceStartable(l + [o])
  {
    if i :| 0 <= i < |l| && Startable(l[i]) { assert Startable((l + [o])[i]); }
    if Startable(o) { assert Startable((l + [o])[|l|]); }
  }

  lemma {:induction false} FinalizedBefore(l: Life, o: Object)
    requires EverFinalized(l + [o]) && o.finalizers == {}
    ensures EverFinalized(l)
  {
    var i :| 0 <= i < |l + [o]| && (l + [o])[i].finalizers != {};
    assert i < |l| && l[i].finalizers != {};
  }

  lemma {:induction false} UpdateFollows(w: World, key: Key, at: nat, o: Object)
    requires OwnSides(w) && key in w.resources && (Accepted(w.resources[key], at, o) ==> Follows(w, key, o))
    ensures OwnSides(UpdateResource(w, key, at, o))
  {
    if Accepted(w.resources[key], at, o) {
      OwnSideAppended(w, key, o);
      var w' := UpdateResource(w, key, at, o);
      assert Extends(w, w') by { ResourceExtends(w, key, w.resources[key] + [o]); }
      forall k | k in w'.resources && k != key ensures OwnSide(w', k) { OwnSideFrame(w, w', k); }
    } else {
      assert UpdateResource(w, key, at, o) == w;
    }
  }

  lemma {:induction false} PassFollows(w: World, key: Key, views: seq<JobView>, out: Outcome, o: Object)
    requires key in w.resources && Alive(w.resources[key]) && Listed(w, OfResource(key), views)
    requires ResourceDecision(key.kind, Last(w.resources[key]), Announced(views), out) == Put(o)
    requires !OwnedByEnvironment(Last(w.resources[key]))
    ensures Follows(w, key, o)
  {
    if Announced(views) == Some(Jobs.SuccessfulJobs) { var n := AnnouncedSuccess(w, OfResource(key), views); }
  }

  lemma {:induction false} TakenLeaves(w: World, key: Key, o: Object)
    requires key in w.resources && OwnedByEnvironment(o)
    ensures OwnSide(PutResource(w, key, w.resources[key] + [o]), key)
  {
    assert OwnedByEnvironment((w.resources[key] + [o])[|w.resources[key]|]);
  }

  lemma {:induction false} OwnedUpdateKeeps(w: World, key: Key, at: nat, o: Object)
    requires OwnSides(w) && key in w.resources && OwnedByEnvironment(o)
    ensures OwnSides(UpdateResource(w, key, at, o))
  {
    if Accepted(w.resources[key], at, o) {
      TakenLeaves(w, key, o);
      var w' := UpdateResource(w, key, at, o);
      assert Extends(w, w') by { ResourceExtends(w, key, w.resources[key] + [o]); }
      forall k | k in w'.resources && k != key ensures OwnSide(w', k) { OwnSideFrame(w, w', k); }
    } else {
      assert UpdateResource(w, key, at, o) == w;
    }
  }

  lemma {:induction false} ResourceStepFollows(w: World, key: Key, at: nat, views: seq<JobView>, out: Outcome)
    requires OwnSides(w) && Enabled(w, ResourceStep(key, at, views, out))
    ensures OwnSides(Effect(w, ResourceStep(key, at, views, out)))
  {
    var d := ResourceDecision(key.kind, w.resources[key][at], Announced(views), out);
    if d.Put? {
      if OwnedByEnvironment(w.resources[key][at]) {
        OwnersDecide(w.resources[key][at], d.version);
        OwnedUpdateKeeps(w, key, at, d.version);
      } else {
        if Accepted(w.resources[key], at, d.version) { PassFollows(w, key, views, out, d.version); }
        UpdateFollows(w, key, at, d.version);
      }
    } else if d.StartJob? {
      var w' := Effect(w, ResourceStep(key, at, views, out));
      assert Extends(w, w');
      forall k | k in w'.resources ensures OwnSide(w', k) { OwnSideFrame(w, w', k); }
    }
  }

  lemma {:induction false} TakeKeeps(w: World, name: string, at: nat, kind: Kind, readAt: nat)
    requires OwnSides(w) && Enabled(w, TakeOwnership(name, at, kind, readAt))
    ensures OwnSides(Effect(w, TakeOwnership(name, at, kind, readAt)))
  {
    var key := KeyOf(w.environments[name].providers, kind);
    var r := w.resources[key][readAt];
    assert Taken(r, name).owners[|r.owners|].kind == EnvironmentOwner;
    OwnedUpdateKeeps(w, key, readAt, Taken(r, name));
  }

  lemma {:induction false} ReleaseKeeps(w: World, name: string, at: nat, views: seq<JobView>, kind: Kind, readAt: nat)
    requires OwnSides(w) && Enabled(w, ReleaseProvider(name, at, views, kind, readAt))
    ensures OwnSides(Effect(w, ReleaseProvider(name, at, views, kind, readAt)))
  {
    var key := KeyOf(w.environments[name].providers, kind);
    UpdateFollows(w, key, readAt, Let(w.resources[key][readAt]));
  }

  lemma {:induction false} NoFinalizer(finalizers: set<Finalizer>)
    requires ProviderFinalizer !in finalizers && ReleaseFinalizer !in finalizers
    ensures finalizers == {}
  {
    forall f ensures f !in finalizers { match f case ProviderFinalizer => case ReleaseFinalizer => }
  }

  lemma {:induction false} DeleteFollows(w: World, key: Key)
    requires OwnSides(w) && key in w.resources
    ensures OwnSides(PutResource(w, key, Deleted(w.resources[key])))
  {
    var l := w.resources[key];
    var o := Last(l).(deleting := true);
    var w' := PutResource(w, key, Deleted(l));
    if Alive(l) && !Last(l).deleting {
      if ProviderFinalizer !in o.finalizers && ReleaseFinalizer !in o.finalizers { NoFinalizer(o.finalizers); }
      OwnSideAppended(w, key, o);
      assert Extends(w, w') by { ResourceExtends(w, key, l + [o]); }
      forall k | k in w'.resources && k != key ensures OwnSide(w', k) { OwnSideFrame(w, w', k); }
    } else {
      assert w' == w;
    }
  }

  /** The steps that write no existing resource. */
  predicate Elsewhere(step: Step) {
    !(step.ResourceStep? || step.TakeOwnership? || step.ReleaseProvider? || step.DeleteResource? || step.CollectOwners?)
  }

  lemma {:induction false} ElsewhereFrame(w: World, step: Step, key: Key)
    requires Elsewhere(step) && key in w.resources
    ensures key in Apply(w, step).resources && Apply(w, step).resources[key] == w.resources[key]
  {
  }

  lemma {:induction false} CreatedFollows(w: World, key: Key, request: string)
    requires key !in w.resources
    ensures OwnSide(Effect(w, CreateResource(key, request)), key)
  {
  }

  lemma {:induction false} OnlyCreateAdds(w: World, step: Step, key: Key)
    requires Elsewhere(step) && key !in w.resources && key in Apply(w, step).resources
    ensures step.CreateResource? && step.key == key && Enabled(w, step)
  {
  }

  lemma {:induction false} ElsewhereKeeps(w: World, step: Step)
    requires OwnSides(w) && Elsewhere(step)
    ensures OwnSides(Apply(w, step))
  {
    var w' := Apply(w, step);
    StepExtends(w, step);
    forall k | k in w'.resources ensures OwnSide(w', k) {
      if k in w.resources {
        ElsewhereFrame(w, step, k);
        OwnSideFrame(w, w', k);
      } else {
        OnlyCreateAdds(w, step, k);
        CreatedFollows(w, k, step.request);
      }
    }
  }

  lemma {:induction false} OwnSidesStepKeeps(w: World, step: Step)
    requires OwnershipKept(w) && OwnSides(w)
    ensures OwnSides(Apply(w, step))
  {
    if Elsewhere(step) {
      ElsewhereKeeps(w, step);
    } else if Enabled(w, step) {
      match step
      case ResourceStep(key, at, views, out) => ResourceStepFollows(w, key, at, views, out);
      case TakeOwnership(name, at, kind, readAt) => TakeKeeps(w, name, at, kind, readAt);
      case ReleaseProvider(name, at, views, kind, readAt) => ReleaseKeeps(w, name, at, views, kind, readAt);
      case DeleteResource(key) => DeleteFollows(w, key);
      case CollectOwners(key) => NothingToCollect(w, key);
    }
  }

  lemma {:induction false} RunKeepsOwnSides(steps: seq<Step>)
    ensures OwnSides(Run(steps))
  {
    if steps == [] {
    } else {
      RunKeepsOwnSides(steps[..|steps| - 1]);
      RunKeepsOwners(steps[..|steps| - 1]);
      OwnSidesStepKeeps(Run(steps[..|steps| - 1]), steps[|steps| - 1]);
    }
  }
}
