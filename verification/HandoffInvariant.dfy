/**
 The inductive invariant of the handoff protocol. Facts about the past ("was once owned",
 "a job covering it completed") are facts about the recorded versions and jobs; they
 survive every step because histories only grow (`Extends`).
 */
module HandoffInvariant {
  import opened Conditions
  import opened Handoff
  import Jobs

  // ---------------------------------------------------------------- facts about the past

  ghost predicate EverOwned(l: Life) {
    exists i :: 0 <= i < |l| && OwnedByEnvironment(l[i])
  }

  ghost predicate EverFinalized(l: Life) {
    exists i :: 0 <= i < |l| && l[i].finalizers != {}
  }

  /** Once being deleted with a finalizer to hold it. */
  ghost predicate EverDeleting(l: Life) {
    exists i :: 0 <= i < |l| && l[i].deleting && !Gone(l[i])
  }

  ghost predicate EverLeft(l: Life) {
    exists i :: 0 <= i < |l| && Left(l[i])
  }

  /** Once being deleted with a finalizer to hold it, while no environment owned it. */
  ghost predicate EverDoomed(l: Life) {
    exists i :: 0 <= i < |l| && l[i].deleting && !Gone(l[i]) && !OwnedByEnvironment(l[i])
  }

  /** Once initialised: condition set and finalizer in place. */
  ghost predicate EverPrepared(l: Life) {
    exists i :: 0 <= i < |l| && ReleaseFinalizer in l[i].finalizers && l[i].active.Some?
  }

  /** The deadline fired while the environment had not taken its providers. */
  ghost predicate ExpiredPending(l: Life) {
    exists i :: 0 <= i < |l| - 1 && PendingExpiry(l, i)
  }

  predicate PendingExpiry(l: Life, i: int)
    requires 0 <= i < |l| - 1
  {
    !Left(l[i]) && ReasonIs(l[i + 1].active, DeadlineExceeded)
  }

  ghost predicate Completes(w: World, n: int, key: Key) {
    0 <= n < |w.jobs| && w.jobs[n].class_ == Jobs.SuccessfulJob && key in w.jobs[n].covers
  }

  /** A release job covering the resource has completed. */
  ghost predicate Covered(w: World, key: Key) {
    exists n :: Completes(w, n, key)
  }

  /** An environment's release job covering the resource has completed. */
  ghost predicate CoveredByEnvironment(w: World, key: Key) {
    exists n :: Completes(w, n, key) && w.jobs[n].owner.OfEnvironment?
  }

  ghost predicate ReleasedBy(w: World, name: string) {
    exists n :: 0 <= n < |w.jobs| && w.jobs[n].owner == OfEnvironment(name) && w.jobs[n].class_ == Jobs.SuccessfulJob
  }

  // ---------------------------------------------------------------- the invariant

  ghost predicate RefOk(w: World, key: Key, ref: OwnerRef) {
    && (ref.controller <==> ref.kind == EnvironmentOwner)
    && (ref.kind == EnvironmentOwner ==>
          && ref.name in w.environments
          && key in KeysOf(w.environments[ref.name].providers)
          && EverPrepared(w.environments[ref.name].life))
  }

  ghost predicate RefsOk(w: World, key: Key, o: Object) {
    forall r :: 0 <= r < |o.owners| ==> RefOk(w, key, o.owners[r])
  }

  /** How consecutive versions of a resource relate. */
  ghost predicate ResourceMove(v: Object, o: Object) {
    && !Gone(v)
    && (v.deleting ==> o.deleting && o.finalizers <= v.finalizers)
    && (!OwnedByEnvironment(v) && OwnedByEnvironment(o) ==> !v.deleting || ReleaseFinalizer in v.finalizers)
    && (ReleaseFinalizer in o.finalizers && ReleaseFinalizer !in v.finalizers ==>
          !OwnedByEnvironment(v) && OwnedByEnvironment(o))
  }

  ghost predicate MoveAt(l: Life, i: int)
    requires 0 <= i < |l| - 1
  {
    ResourceMove(l[i], l[i + 1])
  }

  ghost predicate ResourceHistory(l: Life) {
    && !l[0].deleting && l[0].finalizers == {} && !OwnedByEnvironment(l[0]) && !l[0].completed
    && forall i :: 0 <= i < |l| - 1 ==> MoveAt(l, i)
  }

  /** What protects a resource, or why nothing has to any more. */
  ghost predicate Guarded(w: World, key: Key)
    requires key in w.resources
  {
    var l := w.resources[key];
    && (EverFinalized(l) ==> Last(l).finalizers != {} || Covered(w, key))
    && (OwnedByEnvironment(Last(l)) && ReleaseFinalizer !in Last(l).finalizers ==> Covered(w, key))
    && (Last(l).completed ==> Covered(w, key))
    && (EverOwned(l) ==> ReleaseFinalizer in Last(l).finalizers || CoveredByEnvironment(w, key))
    && (ReleaseFinalizer in Last(l).finalizers ==> EverOwned(l))
  }

  ghost predicate ResourceOk(w: World, key: Key)
    requires key in w.resources
  {
    && ResourceHistory(w.resources[key])
    && (forall i :: 0 <= i < |w.resources[key]| ==> RefsOk(w, key, w.resources[key][i]))
    && Guarded(w, key)
  }

  /** How any earlier version of an environment relates to any later one. */
  ghost predicate EnvironmentMove(v: Object, o: Object) {
    && (v.deleting ==> o.deleting)
    && (v.active.Some? ==> o.active.Some?)
    && (Left(v) ==> Left(o))
    && (ReasonIs(v.active, DeadlineExceeded) ==> ReasonIs(o.active, DeadlineExceeded))
    && (v.completed ==> o.completed)
    && (ReleaseFinalizer in v.finalizers ==> ReleaseFinalizer in o.finalizers || (o.deleting && o.completed))
  }

  ghost predicate EnvironmentHistory(l: Life) {
    && !l[0].deleting && l[0].finalizers == {} && l[0].active.None? && !l[0].completed
    && forall i, j :: 0 <= i < j < |l| ==> EnvironmentMove(l[i], l[j])
  }

  ghost predicate AllOnceOwned(w: World, p: Providers) {
    forall key :: key in KeysOf(p) ==> key in w.resources && EverOwned(w.resources[key])
  }

  ghost predicate EnvironmentOk(w: World, name: string)
    requires name in w.environments
  {
    var e := w.environments[name];
    && EnvironmentHistory(e.life)
    && (EverLeft(e.life) && !ExpiredPending(e.life) ==> AllOnceOwned(w, e.providers))
    && (forall i :: 0 <= i < |e.life| && e.life[i].completed ==> ReleasedBy(w, name))
    && (forall i :: 0 <= i < |e.life| ==> e.life[i].finalizers <= {ReleaseFinalizer})
    && (e.pass.Some? ==> e.pass.value < |e.life| && ReasonIs(e.life[e.pass.value].active, Pending))
  }

  ghost predicate JobOk(w: World, n: nat)
    requires n < |w.jobs|
  {
    match w.jobs[n].owner
    case OfResource(key) =>
      w.jobs[n].covers == {key} && key in w.resources && EverDoomed(w.resources[key])
    case OfEnvironment(name) =>
      && name in w.environments && w.jobs[n].covers == KeysOf(w.environments[name].providers)
      && EverDeleting(w.environments[name].life) && EverLeft(w.environments[name].life)
      && forall key :: key in w.jobs[n].covers ==> key in w.resources
  }

  ghost predicate Untouched(l: Life, name: string) {
    forall i, r :: 0 <= i < |l| && 0 <= r < |l[i].owners| ==>
      !(l[i].owners[r].kind == EnvironmentOwner && l[i].owners[r].name == name)
  }

  /** While a pass holds a freshly initialised environment, that environment owns nothing. */
  ghost predicate PassOk(w: World, name: string)
    requires name in w.environments
  {
    w.environments[name].pass.Some? ==> forall key :: key in w.resources ==> Untouched(w.resources[key], name)
  }

  ghost predicate Inv(w: World) {
    && (forall key :: key in w.resources ==> ResourceOk(w, key))
    && (forall name :: name in w.environments ==> EnvironmentOk(w, name))
    && (forall name :: name in w.environments ==> PassOk(w, name))
    && (forall n :: 0 <= n < |w.jobs| ==> JobOk(w, n))
  }

  // ---------------------------------------------------------------- histories grow

  ghost predicate Extends(w: World, w': World) {
    && (forall key :: key in w.resources ==> key in w'.resources && w.resources[key] <= w'.resources[key])
    && (forall name :: name in w.environments ==>
          && name in w'.environments
          && w.environments[name].life <= w'.environments[name].life
          && w.environments[name].providers == w'.environments[name].providers)
    && |w.jobs| <= |w'.jobs|
    && (forall n :: 0 <= n < |w.jobs| ==>
          && w.jobs[n].owner == w'.jobs[n].owner
          && w.jobs[n].covers == w'.jobs[n].covers
          && (w.jobs[n].class_ == Jobs.ActiveJob || w.jobs[n].class_ == w'.jobs[n].class_))
  }

  lemma {:induction false} PrefixFacts(l: Life, l': Life)
    requires l <= l'
    ensures EverOwned(l) ==> EverOwned(l')
    ensures EverFinalized(l) ==> EverFinalized(l')
    ensures EverDeleting(l) ==> EverDeleting(l')
    ensures EverLeft(l) ==> EverLeft(l')
    ensures EverDoomed(l) ==> EverDoomed(l')
    ensures EverPrepared(l) ==> EverPrepared(l')
    ensures ExpiredPending(l) ==> ExpiredPending(l')
  {
    assert forall i :: 0 <= i < |l| ==> l[i] == l'[i];
    if ExpiredPending(l) {
      var i :| 0 <= i < |l| - 1 && PendingExpiry(l, i);
      assert PendingExpiry(l', i);
    }
  }

  lemma {:induction false} JobFacts(w: World, w': World, key: Key, name: string)
    requires Extends(w, w')
    ensures Covered(w, key) ==> Covered(w', key)
    ensures CoveredByEnvironment(w, key) ==> CoveredByEnvironment(w', key)
    ensures ReleasedBy(w, name) ==> ReleasedBy(w', name)
  {
    if n :| Completes(w, n, key) && w.jobs[n].owner.OfEnvironment? { assert Completes(w', n, key); }
    if n :| Completes(w, n, key) { assert Completes(w', n, key); }
  }

  lemma {:induction false} RefFrame(w: World, w': World, key: Key, o: Object)
    requires Extends(w, w') && RefsOk(w, key, o)
    ensures RefsOk(w', key, o)
  {
    forall r | 0 <= r < |o.owners| ensures RefOk(w', key, o.owners[r]) {
      assert RefOk(w, key, o.owners[r]);
      var name := o.owners[r].name;
      if o.owners[r].kind == EnvironmentOwner {
        PrefixFacts(w.environments[name].life, w'.environments[name].life);
      }
    }
  }

  lemma {:induction false} ResourceFrame(w: World, w': World, key: Key)
    requires Extends(w, w') && key in w.resources && ResourceOk(w, key)
    requires w'.resources[key] == w.resources[key]
    ensures ResourceOk(w', key)
  {
    JobFacts(w, w', key, "");
    forall i | 0 <= i < |w.resources[key]| ensures RefsOk(w', key, w.resources[key][i]) {
      RefFrame(w, w', key, w.resources[key][i]);
    }
  }

  lemma {:induction false} OwnedFrame(w: World, w': World, p: Providers)
    requires Extends(w, w') && AllOnceOwned(w, p)
    ensures AllOnceOwned(w', p)
  {
    forall key | key in KeysOf(p) ensures key in w'.resources && EverOwned(w'.resources[key]) {
      PrefixFacts(w.resources[key], w'.resources[key]);
    }
  }

  lemma {:induction false} EnvironmentFrame(w: World, w': World, name: string)
    requires Extends(w, w') && name in w.environments && EnvironmentOk(w, name)
    requires w'.environments[name].life == w.environments[name].life
    requires w'.environments[name].pass.None? || w'.environments[name].pass == w.environments[name].pass
    ensures EnvironmentOk(w', name)
  {
    var e := w.environments[name];
    JobFacts(w, w', KeyOf(e.providers, Iut), name);
    if AllOnceOwned(w, e.providers) { OwnedFrame(w, w', e.providers); }
  }

  lemma {:induction false} JobFrame(w: World, w': World, n: nat)
    requires Extends(w, w') && n < |w.jobs| && JobOk(w, n)
    ensures JobOk(w', n)
  {
    match w.jobs[n].owner
    case OfResource(key) => PrefixFacts(w.resources[key], w'.resources[key]);
    case OfEnvironment(name) => PrefixFacts(w.environments[name].life, w'.environments[name].life);
  }
}
