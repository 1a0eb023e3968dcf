/**
 Every step keeps the invariant: first for the four kinds of change a step can make
 (a new version of a resource, a new version of an environment, a new job, a finished
 job), then step by step.
 */
module HandoffSteps {
  import opened Conditions
  import opened Handoff
  import opened HandoffInvariant
  import Jobs

  // ---------------------------------------------------------------- a new version of a resource

  /** The next version `o` of a resource does not give up more than the jobs so far allow. */
  ghost predicate Acceptable(w: World, key: Key, o: Object)
    requires key in w.resources
  {
    var v := Last(w.resources[key]);
    && ResourceMove(v, o)
    && RefsOk(w, key, o)
    && (forall r :: 0 <= r < |o.owners| && o.owners[r].kind == EnvironmentOwner ==>
          o.owners[r] in v.owners || w.environments[o.owners[r].name].pass.None?)
    && (v.finalizers != {} && o.finalizers == {} ==> Covered(w, key))
    && (OwnedByEnvironment(o) && ReleaseFinalizer !in o.finalizers ==> Covered(w, key))
    && (o.completed ==> Covered(w, key))
    && (ReleaseFinalizer in v.finalizers && ReleaseFinalizer !in o.finalizers ==> CoveredByEnvironment(w, key))
    && (OwnedByEnvironment(o) && !OwnedByEnvironment(v) ==> ReleaseFinalizer in o.finalizers)
  }

  lemma {:induction false} ResourceHistoryAppended(l: Life, o: Object)
    requires ResourceHistory(l) && ResourceMove(Last(l), o)
    ensures ResourceHistory(l + [o])
  {
    var l' := l + [o];
    forall i | 0 <= i < |l'| - 1 ensures MoveAt(l', i) {
      if i < |l| - 1 { assert MoveAt(l, i); }
    }
  }

  lemma {:induction false} GuardAppended(w: World, key: Key, o: Object)
    requires key in w.resources && Guarded(w, key) && Acceptable(w, key, o)
    ensures Guarded(PutResource(w, key, w.resources[key] + [o]), key)
  {
    var l := w.resources[key];
    var l' := l + [o];
    var w' := PutResource(w, key, l');
    assert Extends(w, w') by { assert l <= l'; }
    JobFacts(w, w', key, "");
    PrefixFacts(l, l');
    assert l'[|l|] == o && Last(l') == o;
    if EverFinalized(l') && o.finalizers == {} {
      var i :| 0 <= i < |l'| && l'[i].finalizers != {};
      assert i < |l| && l[i].finalizers != {};
      assert EverFinalized(l);
    }
    if EverOwned(l') && ReleaseFinalizer !in o.finalizers {
      var i :| 0 <= i < |l'| && OwnedByEnvironment(l'[i]);
      if i < |l| {
        assert OwnedByEnvironment(l[i]);
      } else {
        assert OwnedByEnvironment(Last(l)) ==> OwnedByEnvironment(l[|l| - 1]);
      }
      assert EverOwned(l);
    }
    if ReleaseFinalizer in o.finalizers && OwnedByEnvironment(o) { assert OwnedByEnvironment(l'[|l|]); }
  }

  lemma {:induction false} UntouchedAppended(w: World, key: Key, o: Object, name: string)
    requires key in w.resources && Acceptable(w, key, o) && Untouched(w.resources[key], name)
    requires name in w.environments && w.environments[name].pass.Some?
    ensures Untouched(w.resources[key] + [o], name)
  {
    var l := w.resources[key];
    forall r | 0 <= r < |o.owners| && o.owners[r].kind == EnvironmentOwner
      ensures o.owners[r].name != name
    {
      if o.owners[r] in Last(l).owners {
        var q :| 0 <= q < |Last(l).owners| && Last(l).owners[q] == o.owners[r];
        assert l[|l| - 1].owners[q].kind == EnvironmentOwner;
      }
    }
  }

  lemma {:induction false} ResourceRefsAppended(w: World, key: Key, o: Object, w': World)
    requires key in w.resources && ResourceOk(w, key) && Acceptable(w, key, o)
    requires Extends(w, w') && w'.resources[key] == w.resources[key] + [o]
    ensures forall i :: 0 <= i < |w'.resources[key]| ==> RefsOk(w', key, w'.resources[key][i])
  {
    var l := w.resources[key];
    forall i | 0 <= i < |l| + 1 ensures RefsOk(w', key, w'.resources[key][i]) {
      if i < |l| { assert RefsOk(w, key, l[i]); }
      RefFrame(w, w', key, w'.resources[key][i]);
    }
  }

  lemma {:induction false} ResourceAppended(w: World, key: Key, o: Object)
    requires Inv(w) && key in w.resources && Acceptable(w, key, o)
    ensures Inv(PutResource(w, key, w.resources[key] + [o]))
  {
    var l := w.resources[key];
    var l' := l + [o];
    var w' := PutResource(w, key, l');
    assert Extends(w, w') by { assert l <= l'; }
    assert ResourceOk(w, key);
    ResourceHistoryAppended(l, o);
    GuardAppended(w, key, o);
    ResourceRefsAppended(w, key, o, w');
    forall k | k in w'.resources && k != key ensures ResourceOk(w', k) { ResourceFrame(w, w', k); }
    forall name | name in w'.environments ensures EnvironmentOk(w', name) { EnvironmentFrame(w, w', name); }
    forall n | 0 <= n < |w'.jobs| ensures JobOk(w', n) { JobFrame(w, w', n); }
    forall name | name in w'.environments ensures PassOk(w', name) {
      assert PassOk(w, name);
      if w.environments[name].pass.Some? {
        UntouchedAppended(w, key, o, name);
      }
    }
  }

  // ---------------------------------------------------------------- a new version of an environment

  lemma {:induction false} EnvironmentHistoryAppended(l: Life, o: Object)
    requires EnvironmentHistory(l) && EnvironmentMove(Last(l), o)
    ensures EnvironmentHistory(l + [o])
  {
    var l' := l + [o];
    forall i, j | 0 <= i < j < |l'| ensures EnvironmentMove(l'[i], l'[j]) {
      if j == |l| && i < |l| - 1 { assert EnvironmentMove(l[i], l[|l| - 1]); }
      else if j < |l| { assert EnvironmentMove(l[i], l[j]); }
    }
  }

  /** The next version `o` of an environment, and whether a pass then holds it. */
  ghost predicate AcceptableEnvironment(w: World, name: string, o: Object, pass: Option<nat>)
    requires name in w.environments
  {
    var e := w.environments[name];
    var v := Last(e.life);
    && EnvironmentMove(v, o)
    && (o.completed ==> v.completed || ReleasedBy(w, name))
    && (!Left(v) && Left(o) ==> ReasonIs(o.active, DeadlineExceeded) || AllOnceOwned(w, e.providers))
    && o.finalizers <= {ReleaseFinalizer}
    && (pass.Some? ==> pass.value == |e.life| && ReasonIs(o.active, Pending) && !EverPrepared(e.life))
  }

  lemma {:induction false} EverLeftLast(l: Life)
    requires EnvironmentHistory(l)
    ensures EverLeft(l) <==> Left(Last(l))
  {
    if i :| 0 <= i < |l| && Left(l[i]) {
      if i < |l| - 1 { assert EnvironmentMove(l[i], l[|l| - 1]); }
    }
  }

  lemma {:induction false} NotPreparedUntouched(w: World, name: string, key: Key)
    requires Inv(w) && name in w.environments && !EverPrepared(w.environments[name].life) && key in w.resources
    ensures Untouched(w.resources[key], name)
  {
    var l := w.resources[key];
    forall i, r | 0 <= i < |l| && 0 <= r < |l[i].owners|
      ensures !(l[i].owners[r].kind == EnvironmentOwner && l[i].owners[r].name == name)
    {
      assert ResourceOk(w, key) && RefsOk(w, key, l[i]);
      assert RefOk(w, key, l[i].owners[r]);
    }
  }

  lemma {:induction false} EnvironmentAppended(w: World, name: string, o: Object, pass: Option<nat>)
    requires Inv(w) && name in w.environments && AcceptableEnvironment(w, name, o, pass)
    ensures Inv(PutEnvironment(w, name, w.environments[name].(life := w.environments[name].life + [o], pass := pass)))
  {
    var e := w.environments[name];
    var l, l' := e.life, e.life + [o];
    var w' := PutEnvironment(w, name, e.(life := l', pass := pass));
    assert Extends(w, w') by { assert l <= l'; }
    assert EnvironmentOk(w, name);
    EnvironmentHistoryAppended(l, o);
    PrefixFacts(l, l');
    JobFacts(w, w', KeyOf(e.providers, Iut), name);
    EverLeftLast(l);
    EverLeftLast(l');
    if EverLeft(l') && !ExpiredPending(l') {
      if !Left(Last(l)) {
        if ReasonIs(o.active, DeadlineExceeded) { assert PendingExpiry(l', |l| - 1); }
      }
      OwnedFrame(w, w', e.providers);
    }
    forall i | 0 <= i < |l'| && l'[i].completed ensures ReleasedBy(w', name) {
      if i < |l| { assert l[i].completed; } else { assert Last(l).completed ==> l[|l| - 1].completed; }
    }
    assert EnvironmentOk(w', name);
    forall key | key in w'.resources ensures ResourceOk(w', key) { ResourceFrame(w, w', key); }
    forall other | other in w'.environments && other != name ensures EnvironmentOk(w', other) {
      EnvironmentFrame(w, w', other);
    }
    forall n | 0 <= n < |w'.jobs| ensures JobOk(w', n) { JobFrame(w, w', n); }
    forall other | other in w'.environments ensures PassOk(w', other) {
      assert PassOk(w, other);
      if other == name && pass.Some? {
        forall key | key in w'.resources ensures Untouched(w'.resources[key], name) {
          NotPreparedUntouched(w, name, key);
        }
      }
    }
  }

  /** Dropping the pass of an environment keeps the invariant. */
  lemma {:induction false} PassDropped(w: World, name: string)
    requires Inv(w) && name in w.environments
    ensures Inv(PutEnvironment(w, name, w.environments[name].(pass := None)))
  {
    var w' := PutEnvironment(w, name, w.environments[name].(pass := None));
    assert Extends(w, w');
    forall key | key in w'.resources ensures ResourceOk(w', key) { ResourceFrame(w, w', key); }
    forall other | other in w'.environments ensures EnvironmentOk(w', other) { EnvironmentFrame(w, w', other); }
    forall n | 0 <= n < |w'.jobs| ensures JobOk(w', n) { JobFrame(w, w', n); }
    forall other | other in w'.environments ensures PassOk(w', other) { assert PassOk(w, other); }
  }

  // ---------------------------------------------------------------- jobs

  lemma {:induction false} JobsChanged(w: World, w': World)
    requires Inv(w) && w' == w.(jobs := w'.jobs) && Extends(w, w')
    requires forall n :: |w.jobs| <= n < |w'.jobs| ==> JobOk(w', n)
    ensures Inv(w')
  {
    forall key | key in w'.resources ensures ResourceOk(w', key) { ResourceFrame(w, w', key); }
    forall name | name in w'.environments ensures EnvironmentOk(w', name) { EnvironmentFrame(w, w', name); }
    forall n | 0 <= n < |w'.jobs| ensures JobOk(w', n) {
      if n < |w.jobs| { JobFrame(w, w', n); }
    }
    forall name | name in w'.environments ensures PassOk(w', name) { assert PassOk(w, name); }
  }

  /** A listing that announces success shows a job of the owner that really completed. */
  lemma {:induction false} AnnouncedSuccess(w: World, owner: JobOwner, views: seq<JobView>) returns (n: nat)
    requires Listed(w, owner, views) && Announced(views) == Some(Jobs.SuccessfulJobs)
    ensures n < |w.jobs| && w.jobs[n].owner == owner && w.jobs[n].class_ == Jobs.SuccessfulJob
  {
    var classes := seq(|views|, i requires 0 <= i < |views| => views[i].class_);
    var i :| 0 <= i < |classes| && classes[i] == Jobs.SuccessfulJob;
    n := views[i].job;
  }

  // ---------------------------------------------------------------- the steps on resources

  lemma {:induction false} OwnedLast(w: World, key: Key, o: Object)
    requires RefsOk(w, key, o)
    ensures OwnedByEnvironment(o) <==> HasController(o)
  {
    if i :| 0 <= i < |o.owners| && o.owners[i].kind == EnvironmentOwner { assert RefOk(w, key, o.owners[i]); }
    if i :| 0 <= i < |o.owners| && o.owners[i].controller { assert RefOk(w, key, o.owners[i]); }
  }

  /** A new version with the same owners is acceptable when its finalizers are. */
  lemma {:induction false} SameOwners(w: World, key: Key, o: Object)
    requires Inv(w) && key in w.resources
    requires o.owners == Last(w.resources[key]).owners
    ensures RefsOk(w, key, o)
    ensures OwnedByEnvironment(o) <==> OwnedByEnvironment(Last(w.resources[key]))
    ensures forall r :: 0 <= r < |o.owners| ==> o.owners[r] in Last(w.resources[key]).owners
    ensures Guarded(w, key) && ResourceHistory(w.resources[key])
  {
    var l := w.resources[key];
    assert ResourceOk(w, key) && RefsOk(w, key, l[|l| - 1]);
    forall r | 0 <= r < |o.owners| ensures RefOk(w, key, o.owners[r]) {
      assert RefOk(w, key, l[|l| - 1].owners[r]);
    }
  }

  lemma {:induction false} DeleteKeeps(w: World, key: Key)
    requires Inv(w) && key in w.resources
    ensures Inv(PutResource(w, key, Deleted(w.resources[key])))
  {
    var l := w.resources[key];
    if Alive(l) && !Last(l).deleting {
      var o := Last(l).(deleting := true);
      SameOwners(w, key, o);
      ResourceAppended(w, key, o);
    } else {
      assert PutResource(w, key, Deleted(l)) == w;
    }
  }

  lemma {:induction false} ResourcePutAcceptable(w: World, key: Key, views: seq<JobView>, out: Outcome, o: Object)
    requires Inv(w) && key in w.resources && Alive(w.resources[key]) && Listed(w, OfResource(key), views)
    requires ResourceDecision(key.kind, Last(w.resources[key]), Announced(views), out) == Put(o)
    ensures Acceptable(w, key, o)
  {
    var v := Last(w.resources[key]);
    SameOwners(w, key, o);
    if !OwnedByEnvironment(v) && !v.completed && o.completed {
      var n := AnnouncedSuccess(w, OfResource(key), views);
      assert JobOk(w, n);
      assert Completes(w, n, key);
    }
  }

  lemma {:induction false} StartJobKeeps(w: World, key: Key, at: nat, views: seq<JobView>, out: Outcome)
    requires Inv(w) && ReadableKey(w, key, at)
    requires ResourceDecision(key.kind, w.resources[key][at], Announced(views), out).StartJob?
    ensures Inv(w.(jobs := w.jobs + [ReleaseJob(OfResource(key), {key}, Jobs.ActiveJob)]))
  {
    var w' := w.(jobs := w.jobs + [ReleaseJob(OfResource(key), {key}, Jobs.ActiveJob)]);
    assert w.resources[key][at].deleting && !OwnedByEnvironment(w.resources[key][at]);
    assert EverDoomed(w'.resources[key]);
    JobsChanged(w, w');
  }

  lemma {:induction false} TakeAcceptable(w: World, name: string, at: nat, kind: Kind)
    requires Inv(w) && Holds(w, name, at) && Taking(w.environments[name].life[at])
    requires KeyOf(w.environments[name].providers, kind) in w.resources
    requires var l := w.resources[KeyOf(w.environments[name].providers, kind)];
             Alive(l) && !HasController(Last(l)) && Accepted(l, |l| - 1, Taken(Last(l), name))
    ensures var key := KeyOf(w.environments[name].providers, kind);
            Acceptable(w, key, Taken(Last(w.resources[key]), name))
  {
    var e := w.environments[name];
    var key := KeyOf(e.providers, kind);
    var v := Last(w.resources[key]);
    var o := Taken(v, name);
    SameOwners(w, key, v);
    OwnedLast(w, key, v);
    assert EnvironmentOk(w, name);
    assert ReleaseFinalizer in e.life[at].finalizers;
    assert EverPrepared(e.life);
    forall r | 0 <= r < |o.owners| ensures RefOk(w, key, o.owners[r]) {
      if r < |v.owners| { assert o.owners[r] == v.owners[r]; assert RefOk(w, key, v.owners[r]); }
    }
    assert o.owners[|v.owners|].kind == EnvironmentOwner;
    forall r | 0 <= r < |o.owners| && o.owners[r].kind == EnvironmentOwner
      ensures o.owners[r] in v.owners || w.environments[o.owners[r].name].pass.None?
    {
    }
  }

  lemma {:induction false} LetAcceptable(w: World, name: string, views: seq<JobView>, kind: Kind)
    requires Inv(w) && name in w.environments
    requires Listed(w, OfEnvironment(name), views) && Announced(views) == Some(Jobs.SuccessfulJobs)
    requires KeyOf(w.environments[name].providers, kind) in w.resources
    requires Alive(w.resources[KeyOf(w.environments[name].providers, kind)])
    ensures var key := KeyOf(w.environments[name].providers, kind);
            Acceptable(w, key, Let(Last(w.resources[key])))
  {
    var key := KeyOf(w.environments[name].providers, kind);
    var o := Let(Last(w.resources[key]));
    SameOwners(w, key, o);
    var n := AnnouncedSuccess(w, OfEnvironment(name), views);
    assert JobOk(w, n);
    assert Completes(w, n, key);
  }

  lemma {:induction false} CollectAcceptable(w: World, key: Key)
    requires Inv(w) && key in w.resources && Alive(w.resources[key])
    ensures var r := Last(w.resources[key]);
            Acceptable(w, key, r.(owners := WithoutDangling(w, r.owners)))
  {
    var l := w.resources[key];
    var v := Last(l);
    var o := v.(owners := WithoutDangling(w, v.owners));
    SameOwners(w, key, v);
    forall r | 0 <= r < |o.owners| ensures o.owners[r] in v.owners && RefOk(w, key, o.owners[r]) {
      assert o.owners[r] in o.owners;
      var q :| 0 <= q < |v.owners| && v.owners[q] == o.owners[r];
      assert RefOk(w, key, v.owners[q]);
    }
    assert OwnedByEnvironment(o) ==> OwnedByEnvironment(v) by {
      if i :| 0 <= i < |o.owners| && o.owners[i].kind == EnvironmentOwner {
        var q :| 0 <= q < |v.owners| && v.owners[q] == o.owners[i];
      }
    }
    if ReleaseFinalizer in o.finalizers { assert ReleaseFinalizer in v.finalizers; }
  }

  // ---------------------------------------------------------------- the steps on environments

  lemma {:induction false} PreparedLast(l: Life)
    requires EnvironmentHistory(l) && EverPrepared(l)
    ensures Last(l).active.Some? && (ReleaseFinalizer in Last(l).finalizers || Last(l).deleting)
  {
    var i :| 0 <= i < |l| && ReleaseFinalizer in l[i].finalizers && l[i].active.Some?;
    if i < |l| - 1 { assert EnvironmentMove(l[i], l[|l| - 1]); }
  }

  lemma {:induction false} EnvironmentPutAcceptable(w: World, name: string, views: seq<JobView>, out: Outcome, o: Object)
    requires Inv(w) && name in w.environments && Alive(w.environments[name].life)
    requires EnvironmentDecision(Last(w.environments[name].life), Announced(views), out) == Put(o)
    ensures var l := w.environments[name].life;
            AcceptableEnvironment(w, name, o, HeldAfter(l, |l| - 1, o))
  {
    var l := w.environments[name].life;
    assert EnvironmentOk(w, name);
    assert l[|l| - 1].finalizers <= {ReleaseFinalizer};
    if EverPrepared(l) { PreparedLast(l); }
  }

  lemma {:induction false} SeenOwned(w: World, key: Key, at: nat)
    requires Inv(w) && ReadableKey(w, key, at) && HasController(w.resources[key][at])
    ensures EverOwned(w.resources[key])
  {
    var o := w.resources[key][at];
    assert ResourceOk(w, key) && RefsOk(w, key, o);
    OwnedLast(w, key, o);
  }

  lemma {:induction false} ActivateOwned(w: World, p: Providers, seen: Seen)
    requires Inv(w) && forall kind :: SeesControlled(w, p, seen, kind)
    ensures AllOnceOwned(w, p)
  {
    forall key | key in KeysOf(p) ensures key in w.resources && EverOwned(w.resources[key]) {
      assert SeesControlled(w, p, seen, key.kind);
      SeenOwned(w, key, SeenAt(seen, key.kind));
    }
  }

  /** An accepted environment update by one of the remaining environment steps. */
  lemma {:induction false} EnvironmentUpdateKeeps(w: World, name: string, at: nat, o: Object)
    requires Inv(w) && name in w.environments && at < |w.environments[name].life|
    requires at == |w.environments[name].life| - 1 ==> AcceptableEnvironment(w, name, o, None)
    ensures var e := w.environments[name];
            Inv(PutEnvironment(w, name, e.(life := Updated(e.life, at, o), pass := None)))
  {
    var e := w.environments[name];
    if Accepted(e.life, at, o) {
      EnvironmentAppended(w, name, o, None);
    } else {
      PassDropped(w, name);
    }
  }

  lemma {:induction false} CreateResourceKeeps(w: World, key: Key, request: string)
    requires Inv(w) && key !in w.resources
    ensures Inv(Effect(w, CreateResource(key, request)))
  {
    var w' := Effect(w, CreateResource(key, request));
    assert Extends(w, w');
    assert RefsOk(w', key, w'.resources[key][0]);
    forall k | k in w'.resources && k != key ensures ResourceOk(w', k) { ResourceFrame(w, w', k); }
    forall name | name in w'.environments ensures EnvironmentOk(w', name) { EnvironmentFrame(w, w', name); }
    forall n | 0 <= n < |w'.jobs| ensures JobOk(w', n) { JobFrame(w, w', n); }
    forall name | name in w'.environments ensures PassOk(w', name) { assert PassOk(w, name); }
  }

  lemma {:induction false} CreateEnvironmentKeeps(w: World, name: string, p: Providers)
    requires Inv(w) && name !in w.environments
    ensures Inv(Effect(w, CreateEnvironment(name, p)))
  {
    var w' := Effect(w, CreateEnvironment(name, p));
    assert Extends(w, w');
    forall k | k in w'.resources ensures ResourceOk(w', k) { ResourceFrame(w, w', k); }
    forall other | other in w'.environments && other != name ensures EnvironmentOk(w', other) {
      EnvironmentFrame(w, w', other);
    }
    forall n | 0 <= n < |w'.jobs| ensures JobOk(w', n) { JobFrame(w, w', n); }
    forall other | other in w'.environments ensures PassOk(w', other) {
      if other != name { assert PassOk(w, other); }
    }
  }

  lemma {:induction false} CreateReleaseJobKeeps(w: World, name: string, at: nat, views: seq<JobView>, seen: Seen)
    requires Inv(w) && Enabled(w, CreateReleaseJob(name, at, views, seen))
    ensures Inv(Effect(w, CreateReleaseJob(name, at, views, seen)))
  {
    var w' := Effect(w, CreateReleaseJob(name, at, views, seen));
    var l := w.environments[name].life;
    assert l[at].deleting && Left(l[at]);
    assert EverDeleting(l) && EverLeft(l);
    var p := w.environments[name].providers;
    forall key | key in KeysOf(p) ensures key in w.resources { assert Sees(w, p, seen, key.kind); }
    JobsChanged(w, w');
  }

  // ---------------------------------------------------------------- all steps

  lemma {:induction false} ResourceUpdateKeeps(w: World, key: Key, at: nat, o: Object)
    requires Inv(w) && key in w.resources
    requires Accepted(w.resources[key], at, o) ==> Acceptable(w, key, o)
    ensures Inv(UpdateResource(w, key, at, o))
  {
    if Accepted(w.resources[key], at, o) {
      ResourceAppended(w, key, o);
    } else {
      assert UpdateResource(w, key, at, o) == w;
    }
  }

  lemma {:induction false} ResourceStepKeeps(w: World, key: Key, at: nat, views: seq<JobView>, out: Outcome)
    requires Inv(w) && Enabled(w, ResourceStep(key, at, views, out))
    ensures Inv(Effect(w, ResourceStep(key, at, views, out)))
  {
    var d := ResourceDecision(key.kind, w.resources[key][at], Announced(views), out);
    if d.Put? {
      if Accepted(w.resources[key], at, d.version) { ResourcePutAcceptable(w, key, views, out, d.version); }
      ResourceUpdateKeeps(w, key, at, d.version);
    } else if d.StartJob? {
      StartJobKeeps(w, key, at, views, out);
    }
  }

  lemma {:induction false} TakeOwnershipKeeps(w: World, name: string, at: nat, kind: Kind, readAt: nat)
    requires Inv(w) && Enabled(w, TakeOwnership(name, at, kind, readAt))
    ensures Inv(Effect(w, TakeOwnership(name, at, kind, readAt)))
  {
    var key := KeyOf(w.environments[name].providers, kind);
    var o := Taken(w.resources[key][readAt], name);
    assert Accepted(w.resources[key], readAt, o) ==> Acceptable(w, key, o) by {
      if Accepted(w.resources[key], readAt, o) {
        assert w.resources[key][readAt] == Last(w.resources[key]);
        TakeAcceptable(w, name, at, kind);
      }
    }
    ResourceUpdateKeeps(w, key, readAt, o);
  }

  lemma {:induction false} ReleaseProviderKeeps(w: World, name: string, views: seq<JobView>, kind: Kind, readAt: nat)
    requires Inv(w) && name in w.environments
    requires Listed(w, OfEnvironment(name), views) && Announced(views) == Some(Jobs.SuccessfulJobs)
    requires ReadableKey(w, KeyOf(w.environments[name].providers, kind), readAt)
    ensures var key := KeyOf(w.environments[name].providers, kind);
            Inv(UpdateResource(w, key, readAt, Let(w.resources[key][readAt])))
  {
    var key := KeyOf(w.environments[name].providers, kind);
    var o := Let(w.resources[key][readAt]);
    if Accepted(w.resources[key], readAt, o) {
      LetAcceptable(w, name, views, kind);
      ResourceAppended(w, key, o);
    } else {
      assert UpdateResource(w, key, readAt, o) == w;
    }
  }

  lemma {:induction false} CollectOwnersKeeps(w: World, key: Key)
    requires Inv(w) && Enabled(w, CollectOwners(key))
    ensures Inv(Effect(w, CollectOwners(key)))
  {
    var r := Last(w.resources[key]);
    CollectAcceptable(w, key);
    ResourceUpdateKeeps(w, key, |w.resources[key]| - 1, r.(owners := WithoutDangling(w, r.owners)));
  }

  lemma {:induction false} EnvironmentStepKeeps(w: World, name: string, at: nat, views: seq<JobView>, out: Outcome)
    requires Inv(w) && Enabled(w, EnvironmentStep(name, at, views, out))
    ensures Inv(Effect(w, EnvironmentStep(name, at, views, out)))
  {
    var e := w.environments[name];
    var d := EnvironmentDecision(e.life[at], Announced(views), out);
    if d.Put? {
      if Accepted(e.life, at, d.version) {
        EnvironmentPutAcceptable(w, name, views, out, d.version);
        EnvironmentAppended(w, name, d.version, HeldAfter(e.life, at, d.version));
      } else {
        assert Effect(w, EnvironmentStep(name, at, views, out)) == w;
      }
    }
  }

  lemma {:induction false} EnvironmentFinalizers(w: World, name: string)
    requires Inv(w) && name in w.environments
    ensures Last(w.environments[name].life).finalizers <= {ReleaseFinalizer}
    ensures EnvironmentHistory(w.environments[name].life)
  {
    assert EnvironmentOk(w, name);
    var l := w.environments[name].life;
    assert l[|l| - 1].finalizers <= {ReleaseFinalizer};
  }

  lemma {:induction false} DeleteEnvironmentKeeps(w: World, name: string)
    requires Inv(w) && name in w.environments
    ensures Inv(Effect(w, DeleteEnvironment(name)))
  {
    var e := w.environments[name];
    if Alive(e.life) && !Last(e.life).deleting {
      EnvironmentFinalizers(w, name);
      EnvironmentAppended(w, name, Last(e.life).(deleting := true), None);
    } else {
      PassDropped(w, name);
    }
  }

  lemma {:induction false} ExpireKeeps(w: World, name: string, at: nat, message: string)
    requires Inv(w) && Enabled(w, Expire(name, at, message))
    ensures Inv(Effect(w, Expire(name, at, message)))
  {
    EnvironmentFinalizers(w, name);
    EnvironmentUpdateKeeps(w, name, at, Expired(w.environments[name].life[at], message));
  }

  lemma {:induction false} ActivateKeeps(w: World, name: string, at: nat, seen: Seen)
    requires Inv(w) && Enabled(w, Activate(name, at, seen))
    ensures Inv(Effect(w, Activate(name, at, seen)))
  {
    EnvironmentFinalizers(w, name);
    ActivateOwned(w, w.environments[name].providers, seen);
    EnvironmentUpdateKeeps(w, name, at, Activated(w.environments[name].life[at]));
  }

  lemma {:induction false} CompleteKeeps(w: World, name: string, at: nat, views: seq<JobView>, out: Outcome, found: Found)
    requires Inv(w) && Enabled(w, Complete(name, at, views, out, found))
    ensures Inv(Effect(w, Complete(name, at, views, out, found)))
  {
    EnvironmentFinalizers(w, name);
    var n := AnnouncedSuccess(w, OfEnvironment(name), views);
    EnvironmentUpdateKeeps(w, name, at, Finished(w.environments[name].life[at], out));
  }

  /** The steps of the surroundings. */
  lemma {:induction false} SurroundingStepKeeps(w: World, step: Step)
    requires Inv(w) && Enabled(w, step)
    requires step.CreateResource? || step.CreateEnvironment? || step.DeleteResource? || step.DeleteEnvironment?
          || step.FinishJob? || step.CollectOwners?
    ensures Inv(Effect(w, step))
  {
    match step
    case CreateResource(key, request) => CreateResourceKeeps(w, key, request);
    case CreateEnvironment(name, providers) => CreateEnvironmentKeeps(w, name, providers);
    case DeleteResource(key) => DeleteKeeps(w, key);
    case DeleteEnvironment(name) => DeleteEnvironmentKeeps(w, name);
    case FinishJob(_, _) => JobsChanged(w, Effect(w, step));
    case CollectOwners(key) => CollectOwnersKeeps(w, key);
  }

  /** The steps of the controllers that write a resource or create a job. */
  lemma {:induction false} HandingStepKeeps(w: World, step: Step)
    requires Inv(w) && Enabled(w, step)
    requires step.ResourceStep? || step.TakeOwnership? || step.CreateReleaseJob? || step.ReleaseProvider?
    ensures Inv(Effect(w, step))
  {
    match step
    case ResourceStep(key, at, views, out) => ResourceStepKeeps(w, key, at, views, out);
    case TakeOwnership(name, at, kind, readAt) => TakeOwnershipKeeps(w, name, at, kind, readAt);
    case CreateReleaseJob(name, at, views, seen) => CreateReleaseJobKeeps(w, name, at, views, seen);
    case ReleaseProvider(name, at, views, kind, readAt) => ReleaseProviderKeeps(w, name, views, kind, readAt);
  }

  /** The steps of the environment controller on environments. */
  lemma {:induction false} EnvironmentControllerStepKeeps(w: World, step: Step)
    requires Inv(w) && Enabled(w, step)
    requires step.EnvironmentStep? || step.EndPass? || step.Expire? || step.Activate? || step.Complete?
    ensures Inv(Effect(w, step))
  {
    match step
    case EnvironmentStep(name, at, views, out) => EnvironmentStepKeeps(w, name, at, views, out);
    case EndPass(name) => PassDropped(w, name);
    case Expire(name, at, message) => ExpireKeeps(w, name, at, message);
    case Activate(name, at, seen) => ActivateKeeps(w, name, at, seen);
    case Complete(name, at, views, out, found) => CompleteKeeps(w, name, at, views, out, found);
  }

  lemma {:induction false} StepKeeps(w: World, step: Step)
    requires Inv(w)
    ensures Inv(Apply(w, step))
  {
    if Enabled(w, step) {
      if step.EnvironmentStep? || step.EndPass? || step.Expire? || step.Activate? || step.Complete? {
        EnvironmentControllerStepKeeps(w, step);
      } else if step.ResourceStep? || step.TakeOwnership? || step.CreateReleaseJob? || step.ReleaseProvider? {
        HandingStepKeeps(w, step);
      } else {
        SurroundingStepKeeps(w, step);
      }
    }
  }

  /** The invariant holds after every run. */
  lemma {:induction false} RunKeeps(steps: seq<Step>)
    ensures Inv(Run(steps))
  {
    if steps == [] {
    } else {
      RunKeeps(steps[..|steps| - 1]);
      StepKeeps(Run(steps[..|steps| - 1]), steps[|steps| - 1]);
    }
  }
}
