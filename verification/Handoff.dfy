/**
 The handoff protocol: an IUT, LogArea or ExecutionSpace starts under its own controller,
 an Environment takes it over, and a job releases it. The controllers run concurrently
 over one object store, each from snapshots that may be out of date.

 The store keeps every version an object ever had. A snapshot is an index into that
 history, so a write carrying an old resourceVersion is a write whose index is not the
 last one. `Apply` performs one atomic store operation; a step whose guard does not hold
 changes nothing, so every sequence of steps is a run.
 */
module Handoff {
  import opened Conditions
  import Jobs

  // ---------------------------------------------------------------- objects

  datatype Kind = Iut | LogArea | ExecutionSpace
  datatype Key = Key(kind: Kind, name: string)
  datatype Finalizer = ReleaseFinalizer | ProviderFinalizer
  datatype OwnerKind = EnvironmentOwner | RequestOwner
  datatype OwnerRef = OwnerRef(kind: OwnerKind, name: string, controller: bool)

  /** The part of an Environment, IUT, LogArea or ExecutionSpace the handoff depends on. */
  datatype Object = Object(deleting: bool, finalizers: set<Finalizer>, owners: seq<OwnerRef>,
                           active: Slot, completed: bool)

  /** All versions of one object, oldest first. */
  type Life = l: seq<Object> | |l| > 0 witness [Object(false, {}, [], None, false)]

  datatype Providers = Providers(iut: string, logArea: string, executionSpace: string)

  /** `pass` is the version held by a pass of the environment controller that has just
      initialised the environment and has not yet looked at the deadline. */
  datatype EnvironmentLife = EnvironmentLife(providers: Providers, life: Life, pass: Option<nat>)

  datatype JobOwner = OfResource(key: Key) | OfEnvironment(name: string)
  datatype ReleaseJob = ReleaseJob(owner: JobOwner, covers: set<Key>, class_: Jobs.JobClass)

  datatype World = World(resources: map<Key, Life>, environments: map<string, EnvironmentLife>, jobs: seq<ReleaseJob>)

  function Last(l: Life): Object { l[|l| - 1] }

  /** A deleted object without finalizers is removed from the store. */
  predicate Gone(o: Object) { o.deleting && o.finalizers == {} }

  predicate Alive(l: Life) { !Gone(Last(l)) }

  /** A version that was in the store at some time, so that a cache may still serve it. */
  predicate Readable(l: Life, at: nat) { at < |l| && !Gone(l[at]) }

  predicate OwnedByEnvironment(o: Object) {
    exists i :: 0 <= i < |o.owners| && o.owners[i].kind == EnvironmentOwner
  }

  predicate HasController(o: Object) {
    exists i :: 0 <= i < |o.owners| && o.owners[i].controller
  }

  function KeyOf(p: Providers, kind: Kind): Key {
    match kind
    case Iut => Key(Iut, p.iut)
    case LogArea => Key(LogArea, p.logArea)
    case ExecutionSpace => Key(ExecutionSpace, p.executionSpace)
  }

  function KeysOf(p: Providers): set<Key> {
    {KeyOf(p, Iut), KeyOf(p, LogArea), KeyOf(p, ExecutionSpace)}
  }

  // ---------------------------------------------------------------- the store

  /** An update is accepted only on top of the newest version, and cannot add finalizers
      to an object that is being deleted. */
  predicate Accepted(l: Life, at: nat, o: Object) {
    Alive(l) && at == |l| - 1 && (Last(l).deleting ==> o.finalizers <= Last(l).finalizers)
  }

  function Updated(l: Life, at: nat, o: Object): Life {
    if Accepted(l, at, o) then l + [o] else l
  }

  function Deleted(l: Life): Life {
    if Alive(l) && !Last(l).deleting then l + [Last(l).(deleting := true)] else l
  }

  /** What a listing shows of one job: it may lag behind, it never shows a job finished too early. */
  datatype JobView = JobView(job: nat, class_: Jobs.JobClass)

  predicate Listed(w: World, owner: JobOwner, views: seq<JobView>) {
    forall i :: 0 <= i < |views| ==>
      && views[i].job < |w.jobs|
      && w.jobs[views[i].job].owner == owner
      && (views[i].class_ == Jobs.ActiveJob || views[i].class_ == w.jobs[views[i].job].class_)
  }

  function Announced(views: seq<JobView>): Option<Jobs.JobStatus> {
    Jobs.Announce(seq(|views|, i requires 0 <= i < |views| => views[i].class_))
  }

  // ---------------------------------------------------------------- decisions

  /** What a pass learns from outside: the result of the job it looks at, and whether
      creating a job failed. */
  datatype Outcome = Outcome(failed: bool, description: string, creationError: Option<string>)

  const QUIET := Outcome(false, "", None)

  /** One store operation of a pass on its own object. */
  datatype Decision = Idle | Put(version: Object) | StartJob

  function PutActive(o: Object, c: Condition): Decision {
    if Changes(o.active, c) then Put(o.(active := Some(c))) else Idle
  }

  function ReleasingMessage(kind: Kind): string {
    match kind
    case Iut => "Releasing IUT"
    case LogArea => "Releasing LogArea"
    case ExecutionSpace => "Releasing ExecutionSpace"
  }

  function FinalCondition(out: Outcome): Condition {
    Condition(False, if out.failed then Failed else Completed, out.description)
  }

  /** A pass of the controller of an IUT, LogArea or ExecutionSpace. */
  function ResourceDecision(kind: Kind, r: Object, announced: Option<Jobs.JobStatus>, out: Outcome): Decision {
    if OwnedByEnvironment(r) then
      if ProviderFinalizer in r.finalizers then Put(r.(finalizers := r.finalizers - {ProviderFinalizer}))
      else if !r.deleting then PutActive(r, Condition(True, Active, "In use"))
      else PutActive(r, Condition(False, Pending, ReleasingMessage(kind)))
    else if r.completed then
      if r.deleting && ProviderFinalizer in r.finalizers
      then Put(r.(finalizers := r.finalizers - {ProviderFinalizer})) else Idle
    else if r.active.None? then Put(r.(active := Some(Condition(False, Pending, "Waiting for environment"))))
    else if ReasonIs(r.active, Failed) then Idle
    else if !r.deleting then
      if ProviderFinalizer !in r.finalizers
      then Put(r.(finalizers := r.finalizers + {ProviderFinalizer})) else Idle
    else ReleaserDecision(kind, r, announced, out)
  }

  /** The release job of a resource that is being deleted by its own controller. */
  function ReleaserDecision(kind: Kind, r: Object, announced: Option<Jobs.JobStatus>, out: Outcome): Decision {
    match announced
    case None => Idle
    case Some(FailedJobs) => PutActive(r, Condition(False, Failed, out.description))
    case Some(SuccessfulJobs) =>
      if Changes(r.active, FinalCondition(out))
      then Put(r.(active := Some(FinalCondition(out)), completed := true)) else Idle
    case Some(ActiveJobs) => PutActive(r, Condition(False, Pending, ReleasingMessage(kind)))
    case Some(NoJobs) =>
      if out.creationError.Some? then PutActive(r, Condition(False, Failed, out.creationError.value))
      else StartJob
  }

  /** Past its initial condition: the environment was activated, or ran out of time. */
  predicate Left(e: Object) { e.active.Some? && e.active.value.reason != Pending }

  /** An environment pass that gets as far as taking ownership. */
  predicate Taking(e: Object) {
    !e.completed && ReasonIs(e.active, Pending) && (e.deleting || ReleaseFinalizer in e.finalizers)
  }

  /** An environment pass that gets as far as looking at the release job. */
  predicate Releasing(e: Object) {
    !e.completed && Left(e) && (e.deleting || ReleaseFinalizer in e.finalizers)
  }

  /** A deadline that was exceeded stays visible as the reason of all later conditions. */
  function ReasonOr(e: Object, reason: Reason): Reason {
    if ReasonIs(e.active, DeadlineExceeded) then DeadlineExceeded else reason
  }

  /** A pass of the environment controller on its own object, apart from the taking and
      releasing of providers and from the deadline. */
  function EnvironmentDecision(e: Object, announced: Option<Jobs.JobStatus>, out: Outcome): Decision {
    if e.completed then
      if e.deleting && ReleaseFinalizer in e.finalizers
      then Put(e.(finalizers := e.finalizers - {ReleaseFinalizer})) else Idle
    else if e.active.None? then
      Put(e.(active := Some(Condition(False, Pending, "Waiting for environment to become ready"))))
    else if !e.deleting && ReleaseFinalizer !in e.finalizers then
      Put(e.(finalizers := e.finalizers + {ReleaseFinalizer}))
    else if ReasonIs(e.active, Pending) then Idle
    else match announced
      case Some(FailedJobs) => PutActive(e, Condition(False, ReasonOr(e, Failed), out.description))
      case Some(ActiveJobs) => PutActive(e, Condition(False, ReasonOr(e, Active), "Release job is running"))
      case Some(NoJobs) =>
        if e.deleting && out.creationError.Some? && !ReasonIs(e.active, Failed)
        then PutActive(e, Condition(False, ReasonOr(e, Failed), out.creationError.value)) else Idle
      case _ => Idle
  }

  function Taken(r: Object, environment: string): Object {
    r.(owners := r.owners + [OwnerRef(EnvironmentOwner, environment, true)],
       finalizers := r.finalizers + {ReleaseFinalizer})
  }

  function Let(r: Object): Object { r.(finalizers := r.finalizers - {ReleaseFinalizer}) }

  function Activated(e: Object): Object {
    e.(active := Some(Condition(True, Completed, "Actively being used")))
  }

  function Finished(e: Object, out: Outcome): Object {
    e.(active := Some(Condition(False, ReasonOr(e, FinalCondition(out).reason), out.description)), completed := true)
  }

  function Expired(e: Object, message: string): Object {
    e.(active := Some(Condition(False, DeadlineExceeded, message)))
  }

  // ---------------------------------------------------------------- steps

  /** The versions of the three providers an environment pass read. */
  datatype Seen = Seen(iut: nat, logArea: nat, executionSpace: nat)
  datatype Found = Found(iut: Option<nat>, logArea: Option<nat>, executionSpace: Option<nat>)

  function SeenAt(seen: Seen, kind: Kind): nat {
    match kind case Iut => seen.iut case LogArea => seen.logArea case ExecutionSpace => seen.executionSpace
  }

  function FoundAt(found: Found, kind: Kind): Option<nat> {
    match kind case Iut => found.iut case LogArea => found.logArea case ExecutionSpace => found.executionSpace
  }

  datatype Step =
    // The surroundings: providers, users, the request controller, the job controller, garbage collection.
    | CreateResource(key: Key, request: string)
    | CreateEnvironment(name: string, providers: Providers)
    | DeleteResource(key: Key)
    | DeleteEnvironment(name: string)
    | FinishJob(job: nat, succeeded: bool)
    | CollectOwners(key: Key)
    // The controllers of IUTs, LogAreas and ExecutionSpaces.
    | ResourceStep(key: Key, at: nat, views: seq<JobView>, out: Outcome)
    // The environment controller.
    | EnvironmentStep(name: string, at: nat, views: seq<JobView>, out: Outcome)
    | EndPass(name: string)
    | Expire(name: string, at: nat, message: string)
    | TakeOwnership(name: string, at: nat, kind: Kind, readAt: nat)
    | Activate(name: string, at: nat, seen: Seen)
    | CreateReleaseJob(name: string, at: nat, views: seq<JobView>, seen: Seen)
    | ReleaseProvider(name: string, at: nat, views: seq<JobView>, kind: Kind, readAt: nat)
    | Complete(name: string, at: nat, views: seq<JobView>, out: Outcome, found: Found)

  /** A reference to an environment that no longer exists. Garbage collection takes it off a
      resource that has another owner, unless the resource is being deleted already. */
  predicate Dangling(w: World, ref: OwnerRef) {
    ref.kind == EnvironmentOwner && ref.name in w.environments && !Alive(w.environments[ref.name].life)
  }

  function WithoutDangling(w: World, owners: seq<OwnerRef>): (kept: seq<OwnerRef>)
    ensures forall ref :: ref in kept ==> ref in owners
  {
    if owners == [] then []
    else if Dangling(w, owners[0]) then WithoutDangling(w, owners[1..])
    else [owners[0]] + WithoutDangling(w, owners[1..])
  }

  predicate ReadableKey(w: World, key: Key, at: nat) {
    key in w.resources && Readable(w.resources[key], at)
  }

  /** A pass read some version of its provider of this kind. */
  predicate Sees(w: World, p: Providers, seen: Seen, kind: Kind) {
    ReadableKey(w, KeyOf(p, kind), SeenAt(seen, kind))
  }

  /** The version it read has a controller. */
  predicate SeesControlled(w: World, p: Providers, seen: Seen, kind: Kind) {
    Sees(w, p, seen, kind) && HasController(w.resources[KeyOf(p, kind)][SeenAt(seen, kind)])
  }

  predicate Absent(w: World, key: Key) {
    key !in w.resources || !Alive(w.resources[key])
  }

  /** A read of a provider that shows no release finalizer: not found, or a version without it. */
  predicate ReadsReleased(w: World, key: Key, read: Option<nat>) {
    if read.None? then Absent(w, key)
    else ReadableKey(w, key, read.value) && ReleaseFinalizer !in w.resources[key][read.value].finalizers
  }

  /** An idle worker of the environment controller holds version `at` of the environment. */
  predicate Holds(w: World, name: string, at: nat) {
    && name in w.environments
    && w.environments[name].pass.None?
    && Readable(w.environments[name].life, at)
  }

  /** The release containers of an environment delete the resource they release, or fail. */
  predicate AllDeleting(w: World, keys: set<Key>) {
    forall key :: key in keys ==> key in w.resources && Last(w.resources[key]).deleting
  }

  predicate Enabled(w: World, step: Step) {
    match step
    case CreateResource(key, _) => key !in w.resources
    case CreateEnvironment(name, _) => name !in w.environments
    case DeleteResource(key) => key in w.resources
    case DeleteEnvironment(name) => name in w.environments
    case FinishJob(job, succeeded) =>
      && job < |w.jobs| && w.jobs[job].class_ == Jobs.ActiveJob
      && (succeeded && w.jobs[job].owner.OfEnvironment? ==> AllDeleting(w, w.jobs[job].covers))
    case CollectOwners(key) =>
      key in w.resources && !Last(w.resources[key]).deleting &&
      exists i :: 0 <= i < |Last(w.resources[key]).owners| && Dangling(w, Last(w.resources[key]).owners[i])
    case ResourceStep(key, at, views, _) => ReadableKey(w, key, at) && Listed(w, OfResource(key), views)
    case EnvironmentStep(name, at, views, _) => Holds(w, name, at) && Listed(w, OfEnvironment(name), views)
    case EndPass(name) => name in w.environments
    case Expire(name, at, message) =>
      && name in w.environments
      && Readable(w.environments[name].life, at)
      && var e := w.environments[name].life[at];
      && !e.deleting && Changes(e.active, Condition(False, DeadlineExceeded, message))
      && (w.environments[name].pass == Some(at) || (w.environments[name].pass.None? && Releasing(e)))
    case TakeOwnership(name, at, kind, readAt) =>
      && Holds(w, name, at) && Taking(w.environments[name].life[at])
      && var key := KeyOf(w.environments[name].providers, kind);
      && ReadableKey(w, key, readAt) && !HasController(w.resources[key][readAt])
    case Activate(name, at, seen) =>
      && Holds(w, name, at) && Taking(w.environments[name].life[at])
      && forall kind :: SeesControlled(w, w.environments[name].providers, seen, kind)
    case CreateReleaseJob(name, at, views, seen) =>
      && Holds(w, name, at) && Releasing(w.environments[name].life[at]) && w.environments[name].life[at].deleting
      && Listed(w, OfEnvironment(name), views) && Announced(views) == Some(Jobs.NoJobs)
      && forall kind :: Sees(w, w.environments[name].providers, seen, kind)
    case ReleaseProvider(name, at, views, kind, readAt) =>
      && Holds(w, name, at) && Releasing(w.environments[name].life[at])
      && Listed(w, OfEnvironment(name), views) && Announced(views) == Some(Jobs.SuccessfulJobs)
      && var key := KeyOf(w.environments[name].providers, kind);
      && ReadableKey(w, key, readAt) && ReleaseFinalizer in w.resources[key][readAt].finalizers
    case Complete(name, at, views, out, found) =>
      && Holds(w, name, at) && Releasing(w.environments[name].life[at])
      && Listed(w, OfEnvironment(name), views) && Announced(views) == Some(Jobs.SuccessfulJobs)
      && (forall kind :: ReadsReleased(w, KeyOf(w.environments[name].providers, kind), FoundAt(found, kind)))
      && w.environments[name].life[at].active != Finished(w.environments[name].life[at], out).active
  }

  function PutResource(w: World, key: Key, l: Life): World { w.(resources := w.resources[key := l]) }

  function PutEnvironment(w: World, name: string, e: EnvironmentLife): World {
    w.(environments := w.environments[name := e])
  }

  function UpdateEnvironment(w: World, name: string, at: nat, o: Object): World
    requires name in w.environments
  {
    PutEnvironment(w, name, w.environments[name].(life := Updated(w.environments[name].life, at, o)))
  }

  function UpdateResource(w: World, key: Key, at: nat, o: Object): World
    requires key in w.resources
  {
    PutResource(w, key, Updated(w.resources[key], at, o))
  }

  /** The version a pass holds after it initialised the environment, if the write went through. */
  function HeldAfter(l: Life, at: nat, o: Object): Option<nat> {
    if Accepted(l, at, o) && ReasonIs(o.active, Pending) && !o.deleting then Some(|l|) else None
  }

  function Effect(w: World, step: Step): World
    requires Enabled(w, step)
  {
    match step
    case CreateResource(key, request) =>
      PutResource(w, key, [Object(false, {}, [OwnerRef(RequestOwner, request, false)], None, false)])
    case CreateEnvironment(name, providers) =>
      PutEnvironment(w, name, EnvironmentLife(providers, [Object(false, {}, [], None, false)], None))
    case DeleteResource(key) => PutResource(w, key, Deleted(w.resources[key]))
    case DeleteEnvironment(name) =>
      // A pass that holds the environment cannot write any more: its version is no longer the newest.
      PutEnvironment(w, name, w.environments[name].(life := Deleted(w.environments[name].life), pass := None))
    case FinishJob(job, succeeded) =>
      w.(jobs := w.jobs[job := w.jobs[job].(class_ := if succeeded then Jobs.SuccessfulJob else Jobs.FailedJob)])
    case CollectOwners(key) =>
      var r := Last(w.resources[key]);
      UpdateResource(w, key, |w.resources[key]| - 1, r.(owners := WithoutDangling(w, r.owners)))
    case ResourceStep(key, at, views, out) =>
      (match ResourceDecision(key.kind, w.resources[key][at], Announced(views), out)
       case Idle => w
       case Put(o) => UpdateResource(w, key, at, o)
       case StartJob => w.(jobs := w.jobs + [ReleaseJob(OfResource(key), {key}, Jobs.ActiveJob)]))
    case EnvironmentStep(name, at, views, out) =>
      var e := w.environments[name];
      (match EnvironmentDecision(e.life[at], Announced(views), out)
       case Put(o) => PutEnvironment(w, name, e.(life := Updated(e.life, at, o), pass := HeldAfter(e.life, at, o)))
       case _ => w)
    case EndPass(name) => PutEnvironment(w, name, w.environments[name].(pass := None))
    case Expire(name, at, message) =>
      var e := w.environments[name];
      PutEnvironment(w, name, e.(life := Updated(e.life, at, Expired(e.life[at], message)), pass := None))
    case TakeOwnership(name, at, kind, readAt) =>
      var key := KeyOf(w.environments[name].providers, kind);
      UpdateResource(w, key, readAt, Taken(w.resources[key][readAt], name))
    case Activate(name, at, _) => UpdateEnvironment(w, name, at, Activated(w.environments[name].life[at]))
    case CreateReleaseJob(name, _, _, _) =>
      w.(jobs := w.jobs + [ReleaseJob(OfEnvironment(name), KeysOf(w.environments[name].providers), Jobs.ActiveJob)])
    case ReleaseProvider(name, _, _, kind, readAt) =>
      var key := KeyOf(w.environments[name].providers, kind);
      UpdateResource(w, key, readAt, Let(w.resources[key][readAt]))
    case Complete(name, at, _, out, _) =>
      UpdateEnvironment(w, name, at, Finished(w.environments[name].life[at], out))
  }

  function Apply(w: World, step: Step): World {
    if Enabled(w, step) then Effect(w, step) else w
  }

  const EMPTY := World(map[], map[], [])

  function Run(steps: seq<Step>): World {
    if steps == [] then EMPTY else Apply(Run(steps[..|steps| - 1]), steps[|steps| - 1])
  }

  lemma {:induction false} RunSnoc(steps: seq<Step>, step: Step)
    ensures Run(steps + [step]) == Apply(Run(steps), step)
  {
    assert (steps + [step])[..|steps|] == steps;
  }

  lemma {:induction false} Then(steps: seq<Step>, step: Step) returns (more: seq<Step>)
    ensures more == steps + [step] && Run(more) == Apply(Run(steps), step)
  {
    RunSnoc(steps, step);
    more := steps + [step];
  }

  lemma {:induction false} OwnersDecide(a: Object, b: Object)
    requires a.owners == b.owners
    ensures OwnedByEnvironment(a) <==> OwnedByEnvironment(b)
  {
  }
}
