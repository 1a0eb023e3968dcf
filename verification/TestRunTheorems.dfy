/** What every run of the test run controller guarantees. */
module TestRunTheorems {
  import opened Conditions
  import opened TestRuns
  import Jobs

  // ---------------------------------------------------------------- verdict and completion

  /** A completed test run has a verdict, and a failed or overdue one a real verdict. */
  predicate Judged(s: Status) {
    s.completion.Some? ==>
      && !s.verdict.Unset?
      && (ReasonIs(s.active, Failed) || ReasonIs(s.active, DeadlineExceeded) ==> Settled(s))
  }

  /** Completed and DeadlineExceeded are only ever reported together with a completion time,
      and a completion time only with one of the three final reasons. */
  predicate Dated(s: Status) {
    && (ReasonIs(s.active, Completed) || ReasonIs(s.active, DeadlineExceeded) ==> s.completion.Some?)
    && (s.completion.Some? ==>
          && s.active.Some? && s.active.value.status == False
          && s.active.value.reason in {Completed, Failed, DeadlineExceeded})
  }

  predicate Good(s: Status) {
    && Judged(s) && Dated(s)
    && (ReasonIs(s.suiteRunner, Completed) ==> !s.verdict.Unset?)
    && (ReasonIs(s.environment, Failed) ==> Settled(s))
  }

  /** How a status relates to any later one. */
  predicate Moves(s: Status, t: Status) {
    && (!s.verdict.Unset? ==> !t.verdict.Unset?)
    && (s.completion.Some? ==> t.completion.Some?)
    && (ReasonIs(s.suiteRunner, Failed) ==> t.suiteRunner == s.suiteRunner)
  }

  /** What a part of a pass keeps of a status that is not completed. */
  predicate Kept(s: Status, flow: Flow) {
    && (!flow.Fail? ==> Good(flow.status) && Moves(s, flow.status) && !ReasonIs(flow.status.active, DeadlineExceeded))
    && (flow.Continue? ==>
          && flow.status == s.(verdict := flow.status.verdict)
          && (ReasonIs(s.suiteRunner, Failed) || ReasonIs(s.environment, Failed) ==> flow.status == s))
  }

  lemma {:induction false} EarlyPartsKeep(s: Status, input: Input)
    requires Good(s) && s.completion.None?
    ensures Kept(s, EnvironmentRequestPart(s, input)) && Kept(s, EnvironmentPart(s, input))
    ensures EnvironmentRequestPart(s, input).Continue? ==> EnvironmentRequestPart(s, input).status == s
    ensures EnvironmentPart(s, input).Continue? ==> EnvironmentPart(s, input).status == s
  {
  }

  lemma {:induction false} SuiteRunnerPartKeeps(s: Status, input: Input)
    requires Good(s) && s.completion.None?
    ensures Kept(s, SuiteRunnerPart(s, input))
    ensures ReasonIs(s.suiteRunner, Failed) && SuiteRunnerPart(s, input).Continue? ==> Settled(s)
  {
  }

  lemma {:induction false} ActivePartKeeps(s: Status, input: Input)
    requires Good(s) && s.completion.None? && (ReasonIs(s.suiteRunner, Failed) ==> Settled(s))
    ensures var flow := ActivePart(s, input);
            !flow.Fail? && Good(flow.status) && Moves(s, flow.status) && !ReasonIs(flow.status.active, DeadlineExceeded)
    ensures ActivePart(s, input).status.suiteRunner == s.suiteRunner
    ensures ActivePart(s, input).Continue? ==> ActivePart(s, input).status == s
  {
  }

  lemma {:induction false} ReconciledKeeps(s: Status, input: Input)
    requires Good(s) && s.completion.None?
    ensures Kept(s, Reconciled(s, input))
  {
    if input.providers.None? {
      EarlyPartsKeep(s, input);
      SuiteRunnerPartKeeps(s, input);
      var third := SuiteRunnerPart(s, input);
      if third.Continue? { ActivePartKeeps(third.status, input); }
    }
  }

  /** The suite runner condition and the created job after the reconciling part. */
  lemma {:induction false} SuiteRunnerAfter(s: Status, input: Input)
    requires Good(s) && s.completion.None?
    ensures var flow := Reconciled(s, input);
            flow.Fail? || flow.status.suiteRunner == s.suiteRunner
            || (SuiteRunnerPart(s, input).Write? && flow == SuiteRunnerPart(s, input))
    ensures var flow := Reconciled(s, input);
            flow.Write? && flow.createdJob ==> flow == SuiteRunnerPart(s, input)
  {
    if input.providers.None? {
      EarlyPartsKeep(s, input);
      SuiteRunnerPartKeeps(s, input);
      var third := SuiteRunnerPart(s, input);
      if third.Continue? { ActivePartKeeps(third.status, input); }
    }
  }

  lemma {:induction false} OverdueKeeps(s: Status, message: string, now: int)
    requires Good(s)
    ensures var flow := Overdue(s, message, now);
            !flow.Fail? ==> Good(flow.status) && Moves(s, flow.status) && flow.status.suiteRunner == s.suiteRunner
  {
  }

  ghost predicate HistoryOk(v: Versions) {
    && (forall i :: 0 <= i < |v| ==> Good(v[i]))
    && (forall i, j :: 0 <= i < j < |v| ==> Moves(v[i], v[j]))
  }

  ghost predicate Inv(w: World) {
    && HistoryOk(w.versions)
    && (w.held.Some? ==>
          && w.held.value.at < |w.versions|
          && Good(w.held.value.copy)
          && Moves(w.versions[w.held.value.at], w.held.value.copy)
          && w.held.value.copy.suiteRunner == w.versions[w.held.value.at].suiteRunner
          && !ReasonIs(w.held.value.copy.active, DeadlineExceeded))
  }

  lemma {:induction false} Appended(v: Versions, s: Status)
    requires HistoryOk(v) && Good(s) && Moves(Last(v), s)
    ensures HistoryOk(v + [s])
  {
    var v' := v + [s];
    forall i, j | 0 <= i < j < |v'| ensures Moves(v'[i], v'[j]) {
      if j == |v| && i < |v| - 1 { assert Moves(v[i], v[|v| - 1]); }
      else if j < |v| { assert Moves(v[i], v[j]); }
    }
  }

  lemma {:induction false} StepKeeps(w: World, step: Step)
    requires Inv(w)
    ensures Inv(Apply(w, step))
  {
    match step
    case Touch => Appended(w.versions, Last(w.versions));
    case Reconcile(at, input) =>
      if at < |w.versions| && w.versions[at].completion.None? {
        ReconciledKeeps(w.versions[at], Answered(w, input));
        var flow := Reconciled(w.versions[at], Answered(w, input));
        if flow.Write? && at == |w.versions| - 1 { Appended(w.versions, flow.status); }
      }
    case Deadline(message, now) =>
      if w.held.Some? {
        OverdueKeeps(w.held.value.copy, message, now);
        var flow := Overdue(w.held.value.copy, message, now);
        if flow.Write? && w.held.value.at == |w.versions| - 1 { Appended(w.versions, flow.status); }
      }
    case _ =>
  }

  lemma {:induction false} RunSnoc(steps: seq<Step>, step: Step)
    ensures Run(steps + [step]) == Apply(Run(steps), step)
  {
    assert (steps + [step])[..|steps|] == steps;
  }

  lemma {:induction false} RunKeeps(steps: seq<Step>)
    ensures Inv(Run(steps))
  {
    if steps == [] {
    } else {
      RunKeeps(steps[..|steps| - 1]);
      StepKeeps(Run(steps[..|steps| - 1]), steps[|steps| - 1]);
    }
  }

  /** In every version of every run: a test run with a completion time has a verdict, and one
      that failed or ran out of time has a verdict other than "None". */
  lemma {:induction false} CompletedIsJudged(steps: seq<Step>, i: nat)
    requires i < |Run(steps).versions| && Run(steps).versions[i].completion.Some?
    ensures var s := Run(steps).versions[i];
            && !s.verdict.Unset?
            && (ReasonIs(s.active, Failed) || ReasonIs(s.active, DeadlineExceeded) ==> Settled(s))
  {
    RunKeeps(steps);
    assert Good(Run(steps).versions[i]);
  }

  /** A verdict once set never becomes empty again. */
  lemma {:induction false} VerdictStays(steps: seq<Step>, i: nat, j: nat)
    requires i < j < |Run(steps).versions| && !Run(steps).versions[i].verdict.Unset?
    ensures !Run(steps).versions[j].verdict.Unset?
  {
    RunKeeps(steps);
    assert Moves(Run(steps).versions[i], Run(steps).versions[j]);
  }

  /** The final reasons Completed and DeadlineExceeded never appear without a completion time. */
  lemma {:induction false} FinalReasonIsDated(steps: seq<Step>, i: nat)
    requires i < |Run(steps).versions|
    ensures ReasonIs(Run(steps).versions[i].active, Completed) || ReasonIs(Run(steps).versions[i].active, DeadlineExceeded) ==>
              Run(steps).versions[i].completion.Some?
  {
    RunKeeps(steps);
    assert Good(Run(steps).versions[i]);
  }

  /** A failed suite runner stays failed, with the condition it failed with. */
  lemma {:induction false} SuiteRunnerFailureIsFinal(steps: seq<Step>, i: nat, j: nat)
    requires i < j < |Run(steps).versions| && ReasonIs(Run(steps).versions[i].suiteRunner, Failed)
    ensures Run(steps).versions[j].suiteRunner == Run(steps).versions[i].suiteRunner
  {
    RunKeeps(steps);
    assert Moves(Run(steps).versions[i], Run(steps).versions[j]);
  }

  // ---------------------------------------------------------------- completed means frozen

  /** Completed, and no pass is standing on the newest version. */
  predicate Frozen(w: World) {
    Last(w.versions).completion.Some? && (w.held.None? || w.held.value.at < |w.versions| - 1)
  }

  lemma {:induction false} FrozenStep(w: World, step: Step)
    requires Frozen(w)
    ensures Frozen(Apply(w, step)) && Last(Apply(w, step).versions) == Last(w.versions)
  {
  }

  /** Across passes a completed test run never changes again, whatever happens. */
  lemma {:induction false} CompletedIsFrozen(w: World, more: seq<Step>)
    requires Frozen(w)
    ensures Frozen(RunFrom(w, more)) && Last(RunFrom(w, more).versions) == Last(w.versions)
  {
    if more == [] {
    } else {
      CompletedIsFrozen(w, more[..|more| - 1]);
      FrozenStep(RunFrom(w, more[..|more| - 1]), more[|more| - 1]);
    }
  }

  lemma {:induction false} DeadlineChanges(w: World)
    requires Inv(w) && Last(w.versions).completion.Some? && !Frozen(w)
    ensures var step := Deadline("late", Last(w.versions).completion.value + 1);
            && Last(Apply(w, step).versions) != Last(w.versions)
            && ReasonIs(Last(Apply(w, step).versions).active, DeadlineExceeded)
  {
  }

  lemma {:induction false} RunFromOne(w: World, step: Step)
    ensures RunFrom(w, [step]) == Apply(w, step)
  {
    assert [step][..0] == [];
  }

  ghost predicate Keeps(w: World, more: seq<Step>) { Last(RunFrom(w, more).versions) == Last(w.versions) }

  /** Exactly when a completed test run never changes again: no pass stands on its newest version.
      The pass that completed it does, until it ends: its deadline check can overwrite the outcome. */
  lemma {:induction false} FrozenExactly(steps: seq<Step>)
    requires Last(Run(steps).versions).completion.Some?
    ensures (forall more :: Keeps(Run(steps), more)) <==> Frozen(Run(steps))
  {
    var w := Run(steps);
    if Frozen(w) {
      forall more ensures Keeps(w, more) { CompletedIsFrozen(w, more); }
    } else {
      RunKeeps(steps);
      DeadlineChanges(w);
      RunFromOne(w, Deadline("late", Last(w.versions).completion.value + 1));
      assert !Keeps(w, [Deadline("late", Last(w.versions).completion.value + 1)]);
    }
  }

  /** What a pass learns while everything goes well and no job is listed. */
  const CALM := Input(0, None, false, false, [], Some(true), Some(Jobs.NoJobs), Jobs.Report(Jobs.Successful, Jobs.Unset), "", None, false)

  /** The suite runner job is listed as successful. */
  const SUCCESSFUL := CALM.(jobs := Some(Jobs.SuccessfulJobs), report := Jobs.Report(Jobs.Successful, Jobs.Passed))

  const NEW := Status(None, None, None, Jobs.Unset, None)
  const READY := NEW.(environment := Some(ENVIRONMENT_READY), suiteRunner := Some(STARTED))
  const STARTING := READY.(suiteRunner := Some(Condition(False, Starting, "Suite runner job created")))
  const FINISHED := READY.(suiteRunner := Some(Condition(True, Completed, "")), verdict := Jobs.Passed)
  const REPORTED := FINISHED.(active := Some(STARTED))
  const COMPLETED := REPORTED.(active := Some(Condition(False, Completed, "Suite runners finished successfully")), completion := Some(0))

  /** The run stands at this status, with `n` versions before it and this many jobs created. */
  ghost predicate StandsAt(steps: seq<Step>, n: nat, s: Status, jobs: nat) {
    && |Run(steps).versions| == n + 1 && Last(Run(steps).versions) == s
    && Run(steps).jobs == jobs && (Run(steps).taken <==> jobs > 0)
  }

  /** One pass over the newest version. */
  lemma {:induction false} PassesTo(steps: seq<Step>, n: nat, s: Status, jobs: nat, input: Input, t: Status, created: bool)
    requires StandsAt(steps, n, s, jobs) && s.completion.None?
    requires Reconciled(s, Answered(Run(steps), input)) == Write(t, false, created)
    ensures StandsAt(steps + [Reconcile(n, input)], n + 1, t, if created then jobs + 1 else jobs)
    ensures Run(steps + [Reconcile(n, input)]).held == Some(Held(n + 1, t))
  {
    RunSnoc(steps, Reconcile(n, input));
  }

  const THREE_PASSES: seq<Step> := [Reconcile(0, CALM)] + [Reconcile(1, CALM)] + [Reconcile(2, CALM)]

  lemma {:induction false} ReadyAfterThree()
    ensures StandsAt(THREE_PASSES, 3, READY, 0)
  {
    var s0: seq<Step> := [];
    var s1 := [Reconcile(0, CALM)];
    assert s0 + s1 == s1;
    PassesTo(s0, 0, NEW, 0, CALM, NEW.(environment := Some(STARTED)), false);
    PassesTo(s1, 1, NEW.(environment := Some(STARTED)), 0, CALM, NEW.(environment := Some(ENVIRONMENT_READY)), false);
    PassesTo(s1 + [Reconcile(1, CALM)], 2, NEW.(environment := Some(ENVIRONMENT_READY)), 0, CALM, READY, false);
  }

  /** The job is created, finishes, and comes to be listed. */
  const JOB_DONE: seq<Step> := THREE_PASSES + [Reconcile(3, CALM)] + [Notice]

  lemma {:induction false} StartingAfterFour()
    ensures StandsAt(JOB_DONE, 4, STARTING, 1)
  {
    ReadyAfterThree();
    PassesTo(THREE_PASSES, 3, READY, 0, CALM, STARTING, true);
    RunSnoc(THREE_PASSES + [Reconcile(3, CALM)], Notice);
  }

  const COMPLETING: seq<Step> := JOB_DONE + [Reconcile(4, SUCCESSFUL)] + [Reconcile(5, SUCCESSFUL)] + [Reconcile(6, SUCCESSFUL)]

  lemma {:induction false} CompletedAfterSeven()
    ensures StandsAt(COMPLETING, 7, COMPLETED, 1) && Run(COMPLETING).held == Some(Held(7, COMPLETED))
  {
    StartingAfterFour();
    PassesTo(JOB_DONE, 4, STARTING, 1, SUCCESSFUL, FINISHED, false);
    PassesTo(JOB_DONE + [Reconcile(4, SUCCESSFUL)], 5, FINISHED, 1, SUCCESSFUL, REPORTED, false);
    PassesTo(JOB_DONE + [Reconcile(4, SUCCESSFUL)] + [Reconcile(5, SUCCESSFUL)], 6, REPORTED, 1, SUCCESSFUL, COMPLETED, false);
  }

  /** A run that completes with a passed verdict and is reported as timed out by the same pass. */
  lemma {:induction false} DeadlineOverwritesCompletion()
    ensures Last(Run(COMPLETING).versions) == COMPLETED
    ensures var late := Last(Run(COMPLETING + [Deadline("late", 1)]).versions);
            ReasonIs(late.active, DeadlineExceeded) && late.completion == Some(1)
  {
    CompletedAfterSeven();
    RunSnoc(COMPLETING, Deadline("late", 1));
  }

  /** Every error-free pass over a test run that was not completed when the pass began, and
      whose deadline has passed, leaves it completed, timed out and judged, for good. */
  lemma {:induction false} OverduePassCompletes(steps: seq<Step>, input: Input, message: string, now: int, more: seq<Step>)
    requires var w := Run(steps);
             && Last(w.versions).completion.None?
             && Apply(w, Reconcile(|w.versions| - 1, input)).held.Some?
    ensures var w := Run(steps);
            var after := Apply(Apply(w, Reconcile(|w.versions| - 1, input)), Deadline(message, now));
            var final := Last(RunFrom(after, more).versions);
            && final.completion == Some(now)
            && final.active == Some(Condition(False, DeadlineExceeded, message))
            && Settled(final)
  {
    var w := Run(steps);
    RunKeeps(steps);
    var middle := Apply(w, Reconcile(|w.versions| - 1, input));
    StepKeeps(w, Reconcile(|w.versions| - 1, input));
    assert middle.held.value.at == |middle.versions| - 1;
    var after := Apply(middle, Deadline(message, now));
    CompletedIsFrozen(after, more);
  }

  // ---------------------------------------------------------------- at most one suite runner job

  /** A version from which a pass goes on to create a suite runner job when no job is listed. */
  predicate Startable(s: Status) {
    && s.completion.None? && ReasonIs(s.environment, Completed)
    && s.suiteRunner.Some? && s.suiteRunner.value.reason != Starting && s.suiteRunner.value.reason != Failed
  }

  /** Exactly when a pass can create a suite runner job: from these versions, while the name is free. */
  lemma {:induction false} CreatesExactly(w: World, at: nat)
    ensures (exists input :: Apply(w, Reconcile(at, input)).jobs > w.jobs)
       <==> at < |w.versions| && Startable(w.versions[at]) && !w.taken
  {
    if at < |w.versions| && Startable(w.versions[at]) && !w.taken {
      assert Apply(w, Reconcile(at, CALM.(environments := Some(false)))).jobs == w.jobs + 1;
    }
  }

  /** A test run that has ended stays so, and no pass creates a job from it. */
  lemma {:induction false} EndedStays(steps: seq<Step>, i: nat, j: nat)
    requires i <= j < |Run(steps).versions| && Ended(Run(steps).versions[i])
    ensures Ended(Run(steps).versions[j]) && !Startable(Run(steps).versions[j])
  {
    RunKeeps(steps);
    if i < j { assert Moves(Run(steps).versions[i], Run(steps).versions[j]); }
  }

  predicate ReadsVersion(step: Step) { step.Reconcile? || step.CleanUp? }

  /** The cache a worker reads from never goes back to an older version. */
  ghost predicate Forward(steps: seq<Step>) {
    forall m, n :: 0 <= m < n < |steps| && ReadsVersion(steps[m]) && ReadsVersion(steps[n]) ==> steps[m].at <= steps[n].at
  }

  /** Some pass of the run has read a version in which the test run had ended. */
  ghost predicate ReadEnded(steps: seq<Step>, n: nat) {
    && n < |steps| && ReadsVersion(steps[n]) && steps[n].at < |Run(steps).versions|
    && Ended(Run(steps).versions[steps[n].at])
  }

  lemma {:induction false} VersionsGrow(w: World, step: Step)
    ensures w.versions <= Apply(w, step).versions
  {
  }

  /** While the name is free after a job was created, the job was deleted by a pass that read the
      test run as ended. */
  ghost predicate JobAccounted(steps: seq<Step>) {
    var w := Run(steps);
    && w.jobs <= 1 && (w.taken ==> w.jobs == 1)
    && (w.jobs == 1 && !w.taken ==> exists n: nat :: ReadEnded(steps, n))
  }

  lemma {:induction false} ReadEndedLater(init: seq<Step>, step: Step, n: nat)
    requires ReadEnded(init, n)
    ensures ReadEnded(init + [step], n)
  {
    RunSnoc(init, step);
    VersionsGrow(Run(init), step);
  }

  lemma {:induction false} CleanUpRead(init: seq<Step>, step: Step)
    requires step.CleanUp? && Run(init).taken && !Run(init + [step]).taken
    ensures ReadEnded(init + [step], |init|)
  {
    RunSnoc(init, step);
  }

  lemma {:induction false} NoneFromEnded(init: seq<Step>, step: Step, n: nat)
    requires Forward(init + [step]) && ReadEnded(init, n)
    ensures Apply(Run(init), step).jobs == Run(init).jobs
  {
    if step.Reconcile? {
      assert (init + [step])[n] == init[n] && (init + [step])[|init|] == step;
      if step.at < |Run(init).versions| { EndedStays(init, init[n].at, step.at); }
      CreatesExactly(Run(init), step.at);
    }
  }

  /** How a step changes the count of jobs and the name. */
  lemma {:induction false} StepCounts(w: World, step: Step)
    ensures var w' := Apply(w, step);
            && w.jobs <= w'.jobs <= w.jobs + 1
            && (w'.jobs > w.jobs ==> !w.taken && w'.taken)
            && (w'.taken && !w.taken ==> w'.jobs > w.jobs)
            && (w.taken && !w'.taken ==> step.CleanUp?)
  {
    if step.Reconcile? { CreatesExactly(w, step.at); }
  }

  lemma {:induction false} StepAccounts(init: seq<Step>, step: Step)
    requires Forward(init + [step]) && JobAccounted(init)
    ensures JobAccounted(init + [step])
  {
    RunSnoc(init, step);
    StepCounts(Run(init), step);
    if n: nat :| ReadEnded(init, n) {
      NoneFromEnded(init, step, n);
      ReadEndedLater(init, step, n);
    } else if Run(init).taken && !Apply(Run(init), step).taken {
      CleanUpRead(init, step);
    }
  }

  lemma {:induction false} RunAccounts(steps: seq<Step>)
    requires Forward(steps)
    ensures JobAccounted(steps)
  {
    if steps == [] {
    } else {
      var init, last := steps[..|steps| - 1], steps[|steps| - 1];
      assert steps == init + [last];
      RunAccounts(init);
      StepAccounts(init, last);
    }
  }

  /** Whatever a pass reads, however stale, and whatever the job listing shows: as long as reads do
      not go back in time, at most one suite runner job is ever created. */
  lemma {:induction false} AtMostOneSuiteRunner(steps: seq<Step>)
    requires Forward(steps)
    ensures Run(steps).jobs <= 1
  {
    RunAccounts(steps);
  }

  ghost predicate OnceStartable(v: Versions) { exists i :: 0 <= i < |v| && Startable(v[i]) }

  lemma {:induction false} JobLeavesStartable(steps: seq<Step>)
    requires Run(steps).jobs > 0
    ensures OnceStartable(Run(steps).versions)
  {
    var init, last := steps[..|steps| - 1], steps[|steps| - 1];
    var v, v' := Run(init).versions, Run(steps).versions;
    VersionsGrow(Run(init), last);
    if Run(init).jobs > 0 {
      JobLeavesStartable(init);
      var i :| 0 <= i < |v| && Startable(v[i]);
      assert v'[i] == v[i];
    } else {
      CreatesExactly(Run(init), last.at);
      assert v'[last.at] == v[last.at];
    }
  }

  ghost predicate Another(w: World, at: nat) { exists input :: Apply(w, Reconcile(at, input)).jobs > w.jobs }

  /** Without that, the name alone decides: after a first job some pass over some version can create
      another exactly when the first has been deleted. */
  lemma {:induction false} AnotherExactly(steps: seq<Step>)
    requires Run(steps).jobs > 0
    ensures (exists at: nat :: Another(Run(steps), at)) <==> !Run(steps).taken
  {
    var w := Run(steps);
    if at: nat :| Another(w, at) { CreatesExactly(w, at); }
    if !w.taken {
      JobLeavesStartable(steps);
      var i: nat :| i < |w.versions| && Startable(w.versions[i]);
      CreatesExactly(w, i);
      assert Another(w, i);
    }
  }

  // ---------------------------------------------------------------- failing over its own job

  const OWN_JOB_EXISTS := Condition(False, Failed, ALREADY_EXISTS)

  /** A pass that lists no job finds the name taken and writes that down as a failure. */
  ghost predicate FailsOverOwnJob(w: World, at: nat, input: Input) {
    && input.jobs == Some(Jobs.NoJobs)
    && Apply(w, Reconcile(at, input)).versions == w.versions + [Last(Apply(w, Reconcile(at, input)).versions)]
    && Last(Apply(w, Reconcile(at, input)).versions).suiteRunner == Some(OWN_JOB_EXISTS)
    && Last(w.versions).suiteRunner != Some(OWN_JOB_EXISTS)
  }

  /** Exactly when that can happen while the job exists: on the newest version, if it does not say
      that a job was created. */
  lemma {:induction false} FailsOverOwnJobExactly(w: World, at: nat)
    requires w.taken
    ensures (exists input :: FailsOverOwnJob(w, at, input)) <==> at == |w.versions| - 1 && Startable(Last(w.versions))
  {
    if at == |w.versions| - 1 && Startable(Last(w.versions)) {
      assert FailsOverOwnJob(w, at, CALM.(environments := Some(false)));
    }
  }

  const LOST_WRITE: seq<Step> := THREE_PASSES + [Touch] + [Reconcile(3, CALM)]

  lemma {:induction false} LostWriteRun()
    ensures var w := Run(LOST_WRITE);
            w.jobs == 1 && w.taken && |w.versions| == 5 && Last(w.versions) == READY
  {
    ReadyAfterThree();
    RunSnoc(THREE_PASSES, Touch);
    RunSnoc(THREE_PASSES + [Touch], Reconcile(3, CALM));
  }

  /** A run in which it does: somebody else writes the test run between the read and the status
      write of the pass that creates the job, and the next pass, whose listing does not show the
      job yet, fails the test run over its own job. */
  lemma {:induction false} LostWriteFailsTestRun()
    ensures var steps := LOST_WRITE + [Reconcile(4, CALM)];
            && Forward(steps) && Run(steps).jobs == 1
            && Last(Run(steps).versions).suiteRunner == Some(OWN_JOB_EXISTS)
            && Last(Run(steps).versions).verdict == Jobs.Inconclusive
  {
    LostWriteRun();
    RunSnoc(LOST_WRITE, Reconcile(4, CALM));
  }

  /** A pass that reads the newest version and a job cache that shows exactly what it has
      noticed; the cache only ever grows. Jobs are removed by the controller alone, once the
      suite runner failed, and then the cache may show anything. */
  predicate UpToDate(w: World, step: Step) {
    step.Reconcile? ==>
      && step.at == |w.versions| - 1
      && (ReasonIs(Last(w.versions).suiteRunner, Failed) || (step.input.jobs == Some(Jobs.NoJobs) <==> w.seen == 0))
  }

  ghost predicate Disciplined(steps: seq<Step>) {
    forall n :: 0 <= n < |steps| ==> UpToDateAt(steps, n)
  }

  ghost predicate UpToDateAt(steps: seq<Step>, n: nat)
    requires n < |steps|
  {
    UpToDate(Run(steps[..n]), steps[n])
  }

  predicate JobInv(w: World) {
    && w.seen <= w.jobs <= 1
    && var r := Last(w.versions).suiteRunner;
    && (w.jobs == 1 ==> r.Some? && r.value.reason in {Starting, Active, Completed, Failed})
    && ((ReasonIs(r, Active) || ReasonIs(r, Completed)) ==> w.seen == 1)
  }

  lemma {:induction false} JobPassKeeps(w: World, step: Step)
    requires Inv(w) && JobInv(w) && UpToDate(w, step) && step.Reconcile?
    ensures JobInv(Apply(w, step))
  {
    if Last(w.versions).completion.None? { SuiteRunnerAfter(Last(w.versions), Answered(w, step.input)); }
  }

  lemma {:induction false} JobStepKeeps(w: World, step: Step)
    requires Inv(w) && JobInv(w) && UpToDate(w, step)
    ensures JobInv(Apply(w, step))
  {
    if step.Reconcile? {
      JobPassKeeps(w, step);
    } else if step.Deadline? && w.held.Some? {
      OverdueKeeps(w.held.value.copy, step.message, step.now);
    }
  }

  lemma {:induction false} DisciplinedInit(steps: seq<Step>)
    requires Disciplined(steps) && steps != []
    ensures Disciplined(steps[..|steps| - 1]) && UpToDate(Run(steps[..|steps| - 1]), steps[|steps| - 1])
  {
    var init := steps[..|steps| - 1];
    forall n | 0 <= n < |init| ensures UpToDateAt(init, n) {
      assert UpToDateAt(steps, n);
      assert init[..n] == steps[..n];
    }
    assert UpToDateAt(steps, |init|);
  }

  lemma {:induction false} JobRunKeeps(steps: seq<Step>)
    requires Disciplined(steps)
    ensures JobInv(Run(steps))
  {
    if steps == [] {
    } else {
      var init := steps[..|steps| - 1];
      DisciplinedInit(steps);
      JobRunKeeps(init);
      RunKeeps(init);
      JobStepKeeps(Run(init), steps[|init|]);
    }
  }

  /** With fresh reads a pass never fails over its own job, however far the job cache lags. */
  lemma {:induction false} FreshReadsDoNotFail(steps: seq<Step>, at: nat, input: Input)
    requires Disciplined(steps) && Run(steps).taken && UpToDate(Run(steps), Reconcile(at, input))
    ensures !FailsOverOwnJob(Run(steps), at, input)
  {
    JobRunKeeps(steps);
    TakenIsCreated(steps);
    FailsOverOwnJobExactly(Run(steps), at);
  }

  lemma {:induction false} TakenIsCreated(steps: seq<Step>)
    requires Run(steps).taken
    ensures Run(steps).jobs > 0
  {
    var init := steps[..|steps| - 1];
    if Run(init).taken { TakenIsCreated(init); }
  }

  // ---------------------------------------------------------------- what completion rests on

  predicate Success(s: Status) { ReasonIs(s.suiteRunner, Completed) || ReasonIs(s.active, Completed) }

  ghost predicate EverSuccess(v: Versions) { exists i :: 0 <= i < |v| && Success(v[i]) }

  /** The suite runner job succeeded, and so did its container. */
  predicate JobSucceeded(input: Input) {
    input.jobs == Some(Jobs.SuccessfulJobs) && input.report.conclusion != Jobs.FailedConclusion
  }

  lemma {:induction false} PassSuccess(s: Status, input: Input)
    requires Good(s) && s.completion.None? && !Success(s) && Reconciled(s, input).Write?
    requires Success(Reconciled(s, input).status)
    ensures JobSucceeded(input) && Concludes(Reconciled(s, input).status, input)
  {
    if input.providers.None? {
      EarlyPartsKeep(s, input);
      SuiteRunnerPartKeeps(s, input);
    }
  }

  /** The status carries the result of the job: its description, and the verdict it reported. */
  predicate Concludes(t: Status, input: Input) {
    && t.suiteRunner == Some(Condition(True, Completed, input.description))
    && (input.report.verdict.Unset? ==> t.verdict.NoVerdict?)
    && (!input.report.verdict.Unset? ==> t.verdict == input.report.verdict)
  }

  lemma {:induction false} LastIsNew(v: Versions, v': Versions)
    requires v <= v' && |v'| <= |v| + 1 && EverSuccess(v') && !EverSuccess(v)
    ensures Success(Last(v')) && |v'| == |v| + 1
  {
    assert forall k :: 0 <= k < |v| ==> v'[k] == v[k];
  }

  lemma {:induction false} StepSuccess(w: World, step: Step)
    requires Inv(w) && EverSuccess(Apply(w, step).versions) && !EverSuccess(w.versions)
    ensures step.Reconcile? && JobSucceeded(step.input)
    ensures Concludes(Last(Apply(w, step).versions), step.input)
  {
    LastIsNew(w.versions, Apply(w, step).versions);
    assert forall i :: 0 <= i < |w.versions| ==> !Success(w.versions[i]);
    if step.Reconcile? { PassSuccess(w.versions[step.at], Answered(w, step.input)); }
  }

  /** Step `n` of the run is the one that first shows Completed. */
  ghost predicate SucceedsAt(steps: seq<Step>, n: nat) {
    && n < |steps| && !EverSuccess(Run(steps[..n]).versions)
    && EverSuccess(Apply(Run(steps[..n]), steps[n]).versions)
  }

  /** It is a pass that saw the suite runner job succeed, and it writes the result of that job. */
  ghost predicate ReportsSuccess(steps: seq<Step>, n: nat) {
    && SucceedsAt(steps, n) && steps[n].Reconcile? && JobSucceeded(steps[n].input)
    && Concludes(Last(Apply(Run(steps[..n]), steps[n]).versions), steps[n].input)
  }

  lemma {:induction false} ReportsEarlier(steps: seq<Step>, n: nat)
    requires steps != [] && ReportsSuccess(steps[..|steps| - 1], n)
    ensures ReportsSuccess(steps, n)
  {
    assert steps[..|steps| - 1][..n] == steps[..n];
  }

  /** A test run comes to show Completed only in a pass that saw its suite runner job succeed with
      a conclusion other than Failed, and that pass writes the verdict the job reported. */
  lemma {:induction false} CompletedNeedsSuccess(steps: seq<Step>) returns (n: nat)
    requires EverSuccess(Run(steps).versions)
    ensures ReportsSuccess(steps, n)
  {
    var init := steps[..|steps| - 1];
    if EverSuccess(Run(init).versions) {
      n := CompletedNeedsSuccess(init);
      ReportsEarlier(steps, n);
    } else {
      n := |steps| - 1;
      RunKeeps(init);
      StepSuccess(Run(init), steps[n]);
    }
  }
}
