/**
 The test run controller: what one pass does to the status of a test run, and the runs in
 which passes work from snapshots of any age.

 A pass ends in at most two status writes: one by the reconciling part, which stops there,
 and one by the deadline check that follows an error-free reconciling part. The second
 write starts from the copy the first part left in memory.
 */
module TestRuns {
  import opened Conditions
  import Jobs

  datatype Status = Status(active: Slot, environment: Slot, suiteRunner: Slot,
                           verdict: Jobs.Verdict, completion: Option<int>)

  /** Everything a pass learns from outside.
      `providers`: the error of the provider check.
      `cleanupFails`: deleting jobs or requests after a failure fails.
      `requestsFail`: listing or creating environment requests fails.
      `requests`: the Ready conditions of the listed requests.
      `environments`: whether an environment of this test run is listed, None if listing fails.
      `jobs`: the announced status of the suite runner jobs, None for an error. */
  datatype Input = Input(now: int, providers: Option<string>, cleanupFails: bool, requestsFail: bool,
                         requests: seq<Slot>, environments: Option<bool>, jobs: Option<Jobs.JobStatus>,
                         report: Jobs.Report, description: string, creationError: Option<string>, deleting: bool)

  /** How a part of a pass ends. `fails`: the pass reports an error whatever the write does. */
  datatype Flow =
    | Continue(status: Status)
    | Write(status: Status, fails: bool, createdJob: bool)
    | Fail

  // ---------------------------------------------------------------- the parts of a pass

  predicate Settled(s: Status) { !s.verdict.Unset? && !s.verdict.NoVerdict? }

  /** Gives a terminal failure an explicit verdict. */
  function Settle(s: Status): Status { if Settled(s) then s else s.(verdict := Jobs.Inconclusive) }

  /** The message of the first listed request that is not ready because it failed. */
  function FirstFailure(requests: seq<Slot>): Option<string> {
    if requests == [] then None
    else if requests[0].Some? && requests[0].value.status == False && requests[0].value.reason == Failed
    then Some(requests[0].value.message)
    else FirstFailure(requests[1..])
  }

  const STARTED := Condition(False, Pending, "Reconciliation started")

  function EnvironmentRequestPart(s: Status, input: Input): Flow {
    if s.environment.None? then Write(s.(environment := Some(STARTED)), false, false)
    else if ReasonIs(s.environment, Failed) then
      if !Settled(s) then Write(Settle(s), input.cleanupFails, false)
      else if input.cleanupFails then Fail else Continue(s)
    else if input.requestsFail then Fail
    else match FirstFailure(input.requests)
      case Some(message) =>
        if Changes(s.environment, Condition(False, Failed, message))
        then Write(Settle(s.(environment := Some(Condition(False, Failed, message)))), false, false) else Continue(s)
      case None => Continue(s)
  }

  const ENVIRONMENT_READY := Condition(True, Completed, "Environment ready")

  function EnvironmentPart(s: Status, input: Input): Flow {
    match input.environments
    case None => Fail
    case Some(listed) =>
      if listed && Changes(s.environment, ENVIRONMENT_READY)
      then Write(s.(environment := Some(ENVIRONMENT_READY)), false, false) else Continue(s)
  }

  function SetSuiteRunner(s: Status, c: Condition): Flow {
    if Changes(s.suiteRunner, c) then Write(s.(suiteRunner := Some(c)), false, false) else Continue(s)
  }

  function SuiteRunnerPart(s: Status, input: Input): Flow {
    if input.jobs.None? then Fail
    else if s.suiteRunner.None? then Write(s.(suiteRunner := Some(STARTED)), false, false)
    else if ReasonIs(s.suiteRunner, Failed) then
      if !Settled(s) then Write(Settle(s), input.cleanupFails, false)
      else if input.cleanupFails then Fail else Continue(s)
    else if !ReasonIs(s.environment, Completed) then Continue(s)
    else match input.jobs.value
      case FailedJobs =>
        SetSuiteRunner(Settle(s.(verdict := input.report.verdict)), Condition(False, Failed, input.description))
      case SuccessfulJobs =>
        var judged := s.(verdict := if input.report.verdict.Unset? then Jobs.NoVerdict else input.report.verdict);
        SetSuiteRunner(judged, if input.report.conclusion == Jobs.FailedConclusion
                               then Condition(False, Failed, input.description)
                               else Condition(True, Completed, input.description))
      case ActiveJobs =>
        var judged := s.(verdict := if s.verdict.Unset? then Jobs.NoVerdict else s.verdict);
        var running := judged.(suiteRunner := Some(Condition(True, Active, "Job is running")));
        if running != s then Write(running, false, false) else Continue(s)
      case NoJobs =>
        if input.deleting || ReasonIs(s.suiteRunner, Starting) then Continue(s)
        else if input.creationError.Some? then
          Write(Settle(s.(suiteRunner := Some(Condition(False, Failed, input.creationError.value)))), false, false)
        else
          Write(s.(suiteRunner := Some(Condition(False, Starting, "Suite runner job created"))), false, true)
  }

  /** The condition the test run should show, None while there is nothing to report:
      completion goes before failure, and failure before activity. */
  function Target(s: Status): Slot {
    if ReasonIs(s.suiteRunner, Completed) then Some(Condition(False, Completed, "Suite runners finished successfully"))
    else if ReasonIs(s.suiteRunner, Failed) then Some(Condition(False, Failed, s.suiteRunner.value.message))
    else if ReasonIs(s.environment, Failed) then Some(Condition(False, Failed, s.environment.value.message))
    else if ReasonIs(s.suiteRunner, Active) then Some(Condition(True, Active, "Waiting for suite runners to finish"))
    else None
  }

  function ActivePart(s: Status, input: Input): Flow {
    if s.active.None? then
      Write(s.(active := Some(STARTED), verdict := if s.verdict.Unset? then Jobs.NoVerdict else s.verdict), false, false)
    else match Target(s)
      case None => Continue(s)
      case Some(c) =>
        if Changes(s.active, c) then
          Write(s.(active := Some(c), completion := if c.status == False then Some(input.now) else s.completion), false, false)
        else if c.status == False && c.reason == Failed && !Settled(s) then Write(Settle(s), false, false)
        else Continue(s)
  }

  /** The reconciling part of a pass, from the provider check to the Active condition. */
  function Reconciled(s: Status, input: Input): Flow {
    if input.providers.Some? then
      var failed := Settle(s.(active := Some(Condition(False, Failed, input.providers.value))));
      if failed != s then Write(failed, true, false) else Fail
    else
      var first := EnvironmentRequestPart(s, input);
      if !first.Continue? then first else
      var second := EnvironmentPart(first.status, input);
      if !second.Continue? then second else
      var third := SuiteRunnerPart(second.status, input);
      if !third.Continue? then third else
      ActivePart(third.status, input)
  }

  /** The deadline check of a pass, with the message for an exceeded deadline. */
  function Overdue(s: Status, message: string, now: int): Flow {
    var c := Condition(False, DeadlineExceeded, message);
    if Changes(s.active, c) then Write(Settle(s.(active := Some(c), completion := Some(now))), false, false)
    else if !Settled(s) then Write(Settle(s), false, false)
    else Continue(s)
  }

  // ---------------------------------------------------------------- the object a pass changes in place

  class TestRun {
    var active: Slot
    var environment: Slot
    var suiteRunner: Slot
    var verdict: Jobs.Verdict
    var completion: Option<int>

    function Value(): Status
      reads this
    {
      Status(active, environment, suiteRunner, verdict, completion)
    }

    constructor (s: Status)
      ensures Value() == s
    {
      active, environment, suiteRunner, verdict, completion := s.active, s.environment, s.suiteRunner, s.verdict, s.completion;
    }

    method SetInconclusiveIfUnset() returns (changed: bool)
      modifies this`verdict
      ensures Value() == Settle(old(Value()))
      ensures changed <==> !Settled(old(Value()))
    {
      changed := false;
      if verdict.Unset? || verdict.NoVerdict? {
        verdict := Jobs.Inconclusive;
        changed := true;
      }
    }

    method SetSuiteRunnerCondition(c: Condition) returns (changed: bool)
      modifies this`suiteRunner
      ensures changed <==> Changes(old(suiteRunner), c)
      ensures suiteRunner == Some(c)
    {
      changed := Changes(suiteRunner, c);
      suiteRunner := Some(c);
    }

    method SetActiveCondition(c: Condition) returns (changed: bool)
      modifies this`active
      ensures changed <==> Changes(old(active), c)
      ensures active == Some(c)
    {
      changed := Changes(active, c);
      active := Some(c);
    }

    method ReconcileEnvironmentRequest(input: Input) returns (flow: Flow)
      modifies this
      ensures flow == EnvironmentRequestPart(old(Value()), input)
      ensures !flow.Fail? ==> Value() == flow.status
    {
      if environment.None? {
        environment := Some(STARTED);
        return Write(Value(), false, false);
      }
      if ReasonIs(environment, Failed) {
        var changed := SetInconclusiveIfUnset();
        if changed { return Write(Value(), input.cleanupFails, false); }
        return if input.cleanupFails then Fail else Continue(Value());
      }
      if input.requestsFail { return Fail; }
      var i := 0;
      while i < |input.requests|
        invariant 0 <= i <= |input.requests|
        invariant FirstFailure(input.requests) == FirstFailure(input.requests[i..])
        invariant Value() == old(Value())
      {
        var ready := input.requests[i];
        if ready.Some? && ready.value.status == False && ready.value.reason == Failed {
          var c := Condition(False, Failed, ready.value.message);
          if Changes(environment, c) {
            environment := Some(c);
            var settled := SetInconclusiveIfUnset();
            return Write(Value(), false, false);
          }
          return Continue(Value());
        }
        i := i + 1;
      }
      return Continue(Value());
    }

    method CheckEnvironment(input: Input) returns (flow: Flow)
      modifies this
      ensures flow == EnvironmentPart(old(Value()), input)
      ensures !flow.Fail? ==> Value() == flow.status
    {
      if input.environments.None? { return Fail; }
      if input.environments.value && Changes(environment, ENVIRONMENT_READY) {
        environment := Some(ENVIRONMENT_READY);
        return Write(Value(), false, false);
      }
      return Continue(Value());
    }

    method ReconcileSuiteRunner(input: Input) returns (flow: Flow)
      modifies this
      ensures flow == SuiteRunnerPart(old(Value()), input)
      ensures !flow.Fail? ==> Value() == flow.status
    {
      if input.jobs.None? { return Fail; }
      if suiteRunner.None? {
        suiteRunner := Some(STARTED);
        return Write(Value(), false, false);
      }
      if ReasonIs(suiteRunner, Failed) {
        var changed := SetInconclusiveIfUnset();
        if changed { return Write(Value(), input.cleanupFails, false); }
        return if input.cleanupFails then Fail else Continue(Value());
      }
      if !ReasonIs(environment, Completed) { return Continue(Value()); }
      var changed := false;
      match input.jobs.value {
        case FailedJobs =>
          verdict := if input.report.verdict.Unset? || input.report.verdict.NoVerdict? then Jobs.Inconclusive else input.report.verdict;
          changed := SetSuiteRunnerCondition(Condition(False, Failed, input.description));
        case SuccessfulJobs =>
          verdict := if input.report.verdict.Unset? then Jobs.NoVerdict else input.report.verdict;
          changed := SetSuiteRunnerCondition(if input.report.conclusion == Jobs.FailedConclusion
                                             then Condition(False, Failed, input.description)
                                             else Condition(True, Completed, input.description));
        case ActiveJobs =>
          var verdictChanged := verdict.Unset?;
          if verdictChanged { verdict := Jobs.NoVerdict; }
          changed := SetSuiteRunnerCondition(Condition(True, Active, "Job is running"));
          changed := changed || verdictChanged;
        case NoJobs =>
          if input.deleting || ReasonIs(suiteRunner, Starting) { return Continue(Value()); }
          if input.creationError.Some? {
            changed := SetSuiteRunnerCondition(Condition(False, Failed, input.creationError.value));
            var settled := SetInconclusiveIfUnset();
            return Write(Value(), false, false);
          }
          changed := SetSuiteRunnerCondition(Condition(False, Starting, "Suite runner job created"));
          return Write(Value(), false, true);
      }
      return if changed then Write(Value(), false, false) else Continue(Value());
    }

    method ReconcileActiveStatus(input: Input) returns (flow: Flow)
      modifies this
      ensures flow == ActivePart(old(Value()), input)
      ensures !flow.Fail? ==> Value() == flow.status
    {
      if active.None? {
        active := Some(STARTED);
        if verdict.Unset? { verdict := Jobs.NoVerdict; }
        return Write(Value(), false, false);
      }
      var condition, reason, message := Unknown, Pending, "Unknown status";
      if ReasonIs(suiteRunner, Active) {
        condition, reason, message := True, Active, "Waiting for suite runners to finish";
      }
      if ReasonIs(environment, Failed) {
        condition, reason, message := False, Failed, environment.value.message;
      }
      if ReasonIs(suiteRunner, Failed) {
        condition, reason, message := False, Failed, suiteRunner.value.message;
      }
      if ReasonIs(suiteRunner, Completed) {
        condition, reason, message := False, Completed, "Suite runners finished successfully";
      }
      if condition != Unknown {
        var changed := SetActiveCondition(Condition(condition, reason, message));
        if changed {
          if condition == False { completion := Some(input.now); }
          return Write(Value(), false, false);
        }
        if condition == False && (reason == Failed || reason == DeadlineExceeded) {
          var settled := SetInconclusiveIfUnset();
          if settled { return Write(Value(), false, false); }
        }
      }
      return Continue(Value());
    }

    /** The reconciling part of a pass. */
    method Reconcile(input: Input) returns (flow: Flow)
      modifies this
      ensures flow == Reconciled(old(Value()), input)
      ensures !flow.Fail? ==> Value() == flow.status
    {
      if input.providers.Some? {
        var conditionChanged := SetActiveCondition(Condition(False, Failed, input.providers.value));
        var verdictChanged := SetInconclusiveIfUnset();
        return if conditionChanged || verdictChanged then Write(Value(), true, false) else Fail;
      }
      flow := ReconcileEnvironmentRequest(input);
      if !flow.Continue? { return; }
      flow := CheckEnvironment(input);
      if !flow.Continue? { return; }
      flow := ReconcileSuiteRunner(input);
      if !flow.Continue? { return; }
      flow := ReconcileActiveStatus(input);
    }

    /** The deadline check, once the deadline has passed. */
    method CheckDeadline(message: string, now: int) returns (flow: Flow)
      modifies this
      ensures flow == Overdue(old(Value()), message, now)
      ensures !flow.Fail? ==> Value() == flow.status
    {
      var changed := SetActiveCondition(Condition(False, DeadlineExceeded, message));
      if changed {
        var settled := SetInconclusiveIfUnset();
        completion := Some(now);
        return Write(Value(), false, false);
      }
      var settled := SetInconclusiveIfUnset();
      return if settled then Write(Value(), false, false) else Continue(Value());
    }
  }

  // ---------------------------------------------------------------- runs

  type Versions = v: seq<Status> | |v| > 0 witness [Status(None, None, None, Jobs.Unset, None)]

  /** A pass between its two parts: the version it stands on and its copy of the status. */
  datatype Held = Held(at: nat, copy: Status)

  /** `jobs` counts the suite runner jobs created, `seen` those the job cache has shown. A suite
      runner job has the name of its test run; `taken` says that a job with this name exists. */
  datatype World = World(versions: Versions, held: Option<Held>, jobs: nat, seen: nat, taken: bool)

  datatype Step =
    | Reconcile(at: nat, input: Input)
    | Deadline(message: string, now: int)
    | EndPass
    | Touch    // somebody else writes the object, not its status
    | Notice   // the job cache catches up by one job
    | CleanUp(at: nat)  // a pass deletes the job of a test run that has ended

  function Last(v: Versions): Status { v[|v| - 1] }

  function Stored(w: World, at: nat, s: Status): Versions {
    if at == |w.versions| - 1 then w.versions + [s] else w.versions
  }

  const ALREADY_EXISTS := "already exists"

  /** What a pass learns when it creates a job: a name that is taken is an error. */
  function Answered(w: World, input: Input): Input {
    if w.taken && input.creationError.None? then input.(creationError := Some(ALREADY_EXISTS)) else input
  }

  /** Read in this state, the job of a test run is deleted. */
  predicate Ended(s: Status) { s.completion.Some? || ReasonIs(s.suiteRunner, Failed) }

  function Apply(w: World, step: Step): World {
    match step
    case CleanUp(at) => if at < |w.versions| && Ended(w.versions[at]) then w.(taken := false) else w
    case Touch => w.(versions := w.versions + [Last(w.versions)])
    case EndPass => w.(held := None)
    case Notice => if w.seen < w.jobs then w.(seen := w.seen + 1) else w
    case Reconcile(at, input) =>
      if at >= |w.versions| || w.versions[at].completion.Some? then w.(held := None)
      else (match Reconciled(w.versions[at], Answered(w, input))
        case Continue(s) => w.(held := Some(Held(at, s)))
        case Fail => w.(held := None)
        case Write(s, fails, created) =>
          World(Stored(w, at, s), if at == |w.versions| - 1 && !fails then Some(Held(at + 1, s)) else None,
                if created then w.jobs + 1 else w.jobs, w.seen, w.taken || created))
    case Deadline(message, now) =>
      if w.held.None? then w
      else (match Overdue(w.held.value.copy, message, now)
        case Write(s, _, _) => w.(versions := Stored(w, w.held.value.at, s), held := None)
        case _ => w.(held := None))
  }

  const FRESH := World([Status(None, None, None, Jobs.Unset, None)], None, 0, 0, false)

  function RunFrom(w: World, steps: seq<Step>): World {
    if steps == [] then w else Apply(RunFrom(w, steps[..|steps| - 1]), steps[|steps| - 1])
  }

  function Run(steps: seq<Step>): World { RunFrom(FRESH, steps) }

  /** Steps of the surroundings, which may happen between the two parts of a pass. */
  predicate Surrounding(step: Step) { step.Touch? || step.Notice? || step.CleanUp? }

  /** The first half of a pass: fetch, reconcile and write. The copy in memory is what the second
      half starts from. */
  method FirstHalf(w: World, at: nat, input: Input) returns (w': World, copy: TestRun)
    ensures w' == Apply(w, Reconcile(at, input))
    ensures fresh(copy) && (w'.held.Some? ==> copy.Value() == w'.held.value.copy)
  {
    w' := w.(held := None);
    copy := new TestRun(if at < |w.versions| then w.versions[at] else Last(w.versions));
    if at < |w.versions| && copy.completion.None? {
      var flow := copy.Reconcile(Answered(w, input));
      if flow.Write? {
        w' := w'.(versions := Stored(w, at, flow.status), jobs := if flow.createdJob then w.jobs + 1 else w.jobs,
                  taken := w.taken || flow.createdJob);
        if at == |w.versions| - 1 && !flow.fails { w' := w'.(held := Some(Held(at + 1, flow.status))); }
      } else if flow.Continue? {
        w' := w'.(held := Some(Held(at, flow.status)));
      }
    }
  }

  /** A whole pass: the first half, then the deadline check, with anything happening in between.
      Each part is one step of the run. */
  method Pass(w: World, at: nat, input: Input, between: seq<Step>, overdue: Option<string>) returns (w': World)
    requires forall i :: 0 <= i < |between| ==> Surrounding(between[i])
    ensures var middle := RunFrom(Apply(w, Reconcile(at, input)), between);
            w' == Apply(middle, if overdue.Some? then Deadline(overdue.value, input.now) else EndPass)
  {
    var start, copy := FirstHalf(w, at, input);
    w' := start;
    for i := 0 to |between|
      invariant w' == RunFrom(start, between[..i])
      invariant w'.held == start.held
    {
      assert between[..i + 1][..i] == between[..i];
      w' := Apply(w', between[i]);
    }
    assert between[..|between|] == between;
    if overdue.Some? && start.held.Some? {
      var flow := copy.CheckDeadline(overdue.value, input.now);
      if flow.Write? { w' := w'.(versions := Stored(w', start.held.value.at, flow.status)); }
    }
    w' := w'.(held := None);
  }
}
