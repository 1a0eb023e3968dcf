/**
 The environment request controller: providing environments through a job, and tearing
 everything down before a deleted request may disappear.
 */
module EnvironmentRequests {
  import opened Conditions
  import Jobs

  /** The part of an environment request its controller depends on. */
  datatype Request = Request(deleting: bool, finalizer: bool, ready: Slot, completed: bool)

  /** What a pass learns from outside: the error of the provider check, the listed jobs
      (None if listing fails), their pods, the description of the result, and the error of
      creating a job. */
  datatype Input = Input(providers: Option<string>, listing: Option<seq<Jobs.Job>>, pods: Jobs.PodListing,
                         description: string, creationError: Option<string>)

  datatype Decision = Idle | Put(request: Request, createdJob: bool)

  const MAIN_CONTAINER := "environment-provider"
  const OTHER_CONTAINERS := ["iut-provider", "execution-space-provider", "log-area-provider"]
  const CONTAINERS: seq<string> := OTHER_CONTAINERS + [MAIN_CONTAINER]

  // ---------------------------------------------------------------- one pass

  function Announced(listing: Option<seq<Jobs.Job>>): Option<Jobs.JobStatus> {
    if listing.None? then None else Jobs.Announce(Jobs.Classes(listing.value))
  }

  /** The jobs whose result counts: the successful ones. */
  function Successes(input: Input): seq<Jobs.Job> {
    if input.listing.None? then [] else Jobs.OfClass(input.listing.value, Jobs.SuccessfulJob)
  }

  /** The result read from the successful jobs is a failure. */
  ghost predicate ResultFailed(input: Input) {
    || Jobs.AnyConclusionFailed(Jobs.Examined(Successes(input), input.pods, CONTAINERS))
    || Jobs.AnyUnreadable(Successes(input), input.pods)
  }

  function SetReady(r: Request, c: Condition, finished: bool): Decision {
    if Changes(r.ready, c) then Put(r.(ready := Some(c), completed := r.completed || finished), false) else Idle
  }

  ghost function ProviderDecision(r: Request, input: Input): Decision {
    match Announced(input.listing)
    case None => Idle
    case Some(FailedJobs) => SetReady(r, Condition(False, Failed, input.description), true)
    case Some(SuccessfulJobs) =>
      SetReady(r, if ResultFailed(input) then Condition(False, Failed, input.description)
                  else Condition(True, Completed, input.description), true)
    case Some(ActiveJobs) => SetReady(r, Condition(False, Active, "Environment provider is running"), false)
    case Some(NoJobs) =>
      if r.deleting || ReasonIs(r.ready, Starting) then Idle
      else if input.creationError.Some? then SetReady(r, Condition(False, Failed, input.creationError.value), false)
      else Put(r.(ready := Some(Condition(False, Starting, "Environment provider job created"))), true)
  }

  ghost function ReconcileDecision(r: Request, input: Input): Decision {
    if r.ready.None? then Put(r.(ready := Some(Condition(False, Pending, "Reconciliation started"))), false)
    else if ReasonIs(r.ready, Failed) then Idle
    else if input.providers.Some? then
      Put(r.(ready := Some(Condition(False, Failed, "Provider check failed: " + input.providers.value))), false)
    else ProviderDecision(r, input)
  }

  /** A pass over a request that is not under teardown. */
  ghost function PassDecision(r: Request, input: Input): Decision {
    if !r.deleting && !r.finalizer then Put(r.(finalizer := true), false)
    else if r.completed then Idle
    else ReconcileDecision(r, input)
  }

  /** Teardown first says so in the condition, keeping its status and reason. */
  function Marked(r: Request): Request {
    if ReasonIs(r.ready, Failed) then r
    else if r.ready.Some? then r.(ready := Some(r.ready.value.(message := "Releasing environment")))
    else r.(ready := Some(Condition(False, Unstated, "Releasing environment")))
  }

  // ---------------------------------------------------------------- the teardown listings

  datatype Deletion = Deleted | NotFound | Refused

  /** A listed object: whether it is already being deleted, and what deleting it would answer. */
  datatype Item = Item(deleting: bool, answer: Deletion)

  /** Deletes everything listed. Reports the number of listed objects, or -1 when the
      listing failed, and whether anything went wrong. */
  method DeleteListed(listing: Option<seq<Item>>) returns (count: int, failed: bool)
    ensures count == if listing.Some? then |listing.value| else -1
    ensures failed <==> listing.None? || exists i :: 0 <= i < |listing.value| && !listing.value[i].deleting && listing.value[i].answer.Refused?
  {
    if listing.None? { return -1, true; }
    failed := false;
    var items := listing.value;
    for i := 0 to |items|
      invariant failed <==> exists k :: 0 <= k < i && !items[k].deleting && items[k].answer.Refused?
    {
      if !items[i].deleting && !items[i].answer.Deleted? {
        if !items[i].answer.NotFound? { failed := true; }
      }
    }
    count := |items|;
  }

  datatype Listings = Listings(environments: Option<seq<Item>>, iuts: Option<seq<Item>>,
                               logAreas: Option<seq<Item>>, executionSpaces: Option<seq<Item>>)

  /** All four listings succeeded and were empty. */
  predicate NothingLeft(l: Listings) {
    l.environments == Some([]) && l.iuts == Some([]) && l.logAreas == Some([]) && l.executionSpaces == Some([])
  }

  /** The teardown may finish exactly when all four listings succeeded and were empty: the
      -1 of a failed listing never makes up for objects that are still there. */
  method TearDown(l: Listings) returns (done: bool)
    ensures done <==> NothingLeft(l)
  {
    var environments, failed1 := DeleteListed(l.environments);
    var iuts, failed2 := DeleteListed(l.iuts);
    var logAreas, failed3 := DeleteListed(l.logAreas);
    var executionSpaces, failed4 := DeleteListed(l.executionSpaces);
    if failed1 || failed2 || failed3 || failed4 { return false; }
    return environments + iuts + logAreas + executionSpaces == 0;
  }

  // ---------------------------------------------------------------- the object a pass changes in place

  class EnvironmentRequest {
    const deleting: bool
    var finalizer: bool
    var ready: Slot
    var completed: bool

    function Value(): Request
      reads this
    {
      Request(deleting, finalizer, ready, completed)
    }

    constructor (r: Request)
      ensures Value() == r
    {
      deleting, finalizer, ready, completed := r.deleting, r.finalizer, r.ready, r.completed;
    }

    /** The object now holds what the decision says; `write` tells whether to store it. */
    twostate predicate Follows(d: Decision, write: bool, created: bool)
      reads this
    {
      && (write <==> d.Put?)
      && (d.Put? ==> Value() == d.request && created == d.createdJob)
      && (!d.Put? ==> Value() == old(Value()) && !created)
    }

    method SetReadyCondition(c: Condition) returns (changed: bool)
      modifies this`ready
      ensures changed <==> Changes(old(ready), c)
      ensures ready == Some(c)
    {
      changed := Changes(ready, c);
      ready := Some(c);
    }

    method ReconcileEnvironmentProvider(manager: Jobs.JobManager, input: Input) returns (write: bool, created: bool)
      modifies this, manager
      ensures Follows(ProviderDecision(old(Value()), input), write, created)
    {
      created := false;
      var status := manager.Status(input.listing);
      if status.None? { return false, false; }
      match status.value {
        case FailedJobs =>
          var report := manager.Result(input.pods, MAIN_CONTAINER, OTHER_CONTAINERS);
          write := SetReadyCondition(Condition(False, Failed, input.description));
          if write { completed := true; }
        case SuccessfulJobs =>
          Jobs.StatusByClass(input.listing.value);
          var report := manager.Result(input.pods, MAIN_CONTAINER, OTHER_CONTAINERS);
          assert manager.Selected() == Successes(input);
          write := SetReadyCondition(if report.conclusion == Jobs.FailedConclusion
                                     then Condition(False, Failed, input.description)
                                     else Condition(True, Completed, input.description));
          if write { completed := true; }
        case ActiveJobs =>
          write := SetReadyCondition(Condition(False, Active, "Environment provider is running"));
        case NoJobs =>
          if deleting || ReasonIs(ready, Starting) { return false, false; }
          if input.creationError.Some? {
            write := SetReadyCondition(Condition(False, Failed, input.creationError.value));
            return;
          }
          write := SetReadyCondition(Condition(False, Starting, "Environment provider job created"));
          created := true;
      }
    }

    method Reconcile(manager: Jobs.JobManager, input: Input) returns (write: bool, created: bool)
      modifies this, manager
      ensures Follows(PassDecision(old(Value()), input), write, created)
    {
      created := false;
      if !deleting && !finalizer {
        finalizer := true;
        return true, false;
      }
      if completed { return false, false; }
      if ready.None? {
        write := SetReadyCondition(Condition(False, Pending, "Reconciliation started"));
        return;
      }
      if ReasonIs(ready, Failed) { return false, false; }
      if input.providers.Some? {
        ready := Some(Condition(False, Failed, "Provider check failed: " + input.providers.value));
        return true, false;
      }
      write, created := ReconcileEnvironmentProvider(manager, input);
    }

    /** A pass over a request under teardown. A rejected status write ends it; otherwise the
        finalizer is taken off exactly when nothing is left. */
    method ReconcileDeletion(l: Listings, writeAccepted: bool) returns (marked: bool, finalized: bool)
      requires deleting && finalizer
      modifies this
      ensures marked <==> Marked(old(Value())) != old(Value())
      ensures finalized <==> NothingLeft(l) && (marked ==> writeAccepted)
      ensures Value() == Marked(old(Value())).(finalizer := !finalized)
    {
      finalized := false;
      marked := false;
      var shown := if ready.Some? then ready.value else Condition(False, Unstated, "");
      if !ReasonIs(ready, Failed) {
        marked := SetReadyCondition(shown.(message := "Releasing environment"));
        if marked && !writeAccepted { return; }
      }
      finalized := TearDown(l);
      if finalized { finalizer := false; }
    }
  }

  // ---------------------------------------------------------------- runs

  type Versions = v: seq<Request> | |v| > 0 witness [Request(false, false, None, false)]

  datatype World = World(versions: Versions, jobs: nat, seen: nat)

  datatype Step =
    | Delete
    | Notice   // the job cache catches up by one job
    | Touch    // somebody else writes the object
    | Pass(at: nat, input: Input)
    | Mark(at: nat)
    | Finalize(at: nat, listings: Listings)

  function Last(v: Versions): Request { v[|v| - 1] }

  predicate Gone(r: Request) { r.deleting && !r.finalizer }

  /** A write is accepted on the newest version of an object that still exists; a finalizer
      cannot be added to an object that is being deleted. */
  function Stored(v: Versions, at: nat, r: Request): Versions {
    if at == |v| - 1 && !Gone(Last(v)) && (Last(v).deleting && r.finalizer ==> Last(v).finalizer) then v + [r] else v
  }

  predicate UnderTeardown(v: Versions, at: nat) {
    at < |v| && v[at].deleting && v[at].finalizer
  }

  ghost function Apply(w: World, step: Step): World {
    match step
    case Delete =>
      if Last(w.versions).deleting then w
      else w.(versions := w.versions + [Last(w.versions).(deleting := true)])
    case Notice => if w.seen < w.jobs then w.(seen := w.seen + 1) else w
    case Touch => w.(versions := Stored(w.versions, |w.versions| - 1, Last(w.versions)))
    case Pass(at, input) =>
      if at >= |w.versions| || Gone(w.versions[at]) || UnderTeardown(w.versions, at) then w
      else (match PassDecision(w.versions[at], input)
        case Idle => w
        case Put(r, created) => w.(versions := Stored(w.versions, at, r), jobs := if created then w.jobs + 1 else w.jobs))
    case Mark(at) =>
      if UnderTeardown(w.versions, at) && Marked(w.versions[at]) != w.versions[at]
      then w.(versions := Stored(w.versions, at, Marked(w.versions[at]))) else w
    case Finalize(at, listings) =>
      // Reached in the pass that marked the request, or in a later one.
      if UnderTeardown(w.versions, at) && Marked(w.versions[at]) == w.versions[at] && NothingLeft(listings)
      then w.(versions := Stored(w.versions, at, w.versions[at].(finalizer := false))) else w
  }

  const FRESH := World([Request(false, false, None, false)], 0, 0)

  ghost function Run(steps: seq<Step>): World {
    if steps == [] then FRESH else Apply(Run(steps[..|steps| - 1]), steps[|steps| - 1])
  }
}
