/**
 What a test run comes to say: which verdict a failing suite runner leaves, and which
 conditions a pass over the newest version writes, in terms of what the pass saw.
 */
module TestRunOutcomes {
  import opened Conditions
  import opened TestRuns
  import opened TestRunTheorems
  import Jobs

  // ---------------------------------------------------------------- the verdict of a failure

  predicate SuiteRunnerFailed(s: Status) { ReasonIs(s.suiteRunner, Failed) }

  ghost predicate EverFailed(v: Versions) { exists i :: 0 <= i < |v| && SuiteRunnerFailed(v[i]) }

  /** An omitted or empty verdict of something that failed becomes inconclusive. */
  predicate SettledFrom(given: Jobs.Verdict, verdict: Jobs.Verdict) {
    if given.Unset? || given.NoVerdict? then verdict.Inconclusive? else verdict == given
  }

  /** Why a pass over `s` that leaves `t` reports a failed suite runner: the job failed, the job
      completed with a failed conclusion, or no job could be created. Only in the second case may
      the verdict stay empty. */
  predicate FailureExplained(s: Status, input: Input, t: Status) {
    && t.suiteRunner.Some? && t.suiteRunner.value.status == False
    && match input.jobs
       case Some(FailedJobs) =>
         t.suiteRunner.value.message == input.description && SettledFrom(input.report.verdict, t.verdict)
       case Some(SuccessfulJobs) =>
         && t.suiteRunner.value.message == input.description && input.report.conclusion.FailedConclusion?
         && (if input.report.verdict.Unset? then t.verdict.NoVerdict? else t.verdict == input.report.verdict)
       case Some(NoJobs) =>
         && (input.creationError.Some? ==> t.suiteRunner.value.message == input.creationError.value)
         && (input.creationError.None? ==> t.suiteRunner.value.message == ALREADY_EXISTS)
         && SettledFrom(s.verdict, t.verdict)
       case _ => false
  }

  lemma {:induction false} PartFails(s: Status, input: Input)
    requires !SuiteRunnerFailed(s) && SuiteRunnerPart(s, input).Write?
    requires SuiteRunnerFailed(SuiteRunnerPart(s, input).status)
    ensures FailureExplained(s, input, SuiteRunnerPart(s, input).status)
  {
  }

  lemma {:induction false} StepFails(w: World, step: Step)
    requires Inv(w) && EverFailed(Apply(w, step).versions) && !EverFailed(w.versions)
    ensures step.Reconcile? && FailureExplained(Last(w.versions), step.input, Last(Apply(w, step).versions))
  {
    var v, v' := w.versions, Apply(w, step).versions;
    VersionsGrow(w, step);
    assert forall k :: 0 <= k < |v| ==> v'[k] == v[k] && !SuiteRunnerFailed(v[k]);
    assert |v'| == |v| + 1 && SuiteRunnerFailed(Last(v'));
    match step
    case Reconcile(at, input) =>
      SuiteRunnerAfter(v[at], Answered(w, input));
      PartFails(v[at], Answered(w, input));
    case Deadline(message, now) => OverdueKeeps(w.held.value.copy, message, now);
    case _ =>
  }

  /** Step `n` of the run is the one that first shows a failed suite runner. */
  ghost predicate FailsAt(steps: seq<Step>, n: nat) {
    && n < |steps| && !EverFailed(Run(steps[..n]).versions)
    && EverFailed(Apply(Run(steps[..n]), steps[n]).versions)
  }

  /** It is a pass that saw the reason, and it writes the message and the verdict that go with it. */
  ghost predicate ExplainsFailure(steps: seq<Step>, n: nat) {
    && FailsAt(steps, n) && steps[n].Reconcile?
    && FailureExplained(Last(Run(steps[..n]).versions), steps[n].input, Last(Apply(Run(steps[..n]), steps[n]).versions))
  }

  lemma {:induction false} ExplainsEarlier(steps: seq<Step>, n: nat)
    requires steps != [] && ExplainsFailure(steps[..|steps| - 1], n)
    ensures ExplainsFailure(steps, n)
  {
    assert steps[..|steps| - 1][..n] == steps[..n];
  }

  /** In every run, the step that first shows a failed suite runner explains it. */
  lemma {:induction false} FailureIsExplained(steps: seq<Step>) returns (n: nat)
    requires EverFailed(Run(steps).versions)
    ensures ExplainsFailure(steps, n)
  {
    var init := steps[..|steps| - 1];
    if EverFailed(Run(init).versions) {
      n := FailureIsExplained(init);
      ExplainsEarlier(steps, n);
    } else {
      n := |steps| - 1;
      RunKeeps(init);
      StepFails(Run(init), steps[n]);
    }
  }

  // ---------------------------------------------------------------- passes over the newest version

  /** The status after a pass over the newest version. */
  function After(w: World, input: Input): Status {
    Last(Apply(w, Reconcile(|w.versions| - 1, input)).versions)
  }

  lemma {:induction false} AfterFlow(w: World, input: Input)
    requires Last(w.versions).completion.None?
    ensures var flow := Reconciled(Last(w.versions), Answered(w, input));
            After(w, input) == if flow.Write? then flow.status else Last(w.versions)
  {
  }

  predicate NotReady(request: Slot) {
    request.Some? && request.value.status == False && request.value.reason == Failed
  }

  predicate IsFirstFailure(requests: seq<Slot>, i: nat) {
    i < |requests| && NotReady(requests[i]) && forall k :: 0 <= k < i ==> !NotReady(requests[k])
  }

  predicate NoneFailed(requests: seq<Slot>) {
    forall k :: 0 <= k < |requests| ==> !NotReady(requests[k])
  }

  lemma {:induction false} FirstFailureMeaning(requests: seq<Slot>)
    ensures FirstFailure(requests).None? <==> NoneFailed(requests)
    ensures forall i: nat :: IsFirstFailure(requests, i) ==> FirstFailure(requests) == Some(requests[i].value.message)
  {
    if requests == [] {
    } else if NotReady(requests[0]) {
      assert forall i: nat :: IsFirstFailure(requests, i) ==> i == 0;
    } else {
      var rest := requests[1..];
      FirstFailureMeaning(rest);
      assert forall k :: 0 <= k < |rest| ==> rest[k] == requests[k + 1];
      forall i: nat | IsFirstFailure(requests, i) ensures FirstFailure(requests) == Some(requests[i].value.message) {
        assert i > 0 && IsFirstFailure(rest, i - 1);
      }
    }
  }

  /** A failed provider check fails the test run: it is judged and reported, and the pass is over. */
  lemma {:induction false} ProviderCheckOutcome(w: World, input: Input)
    requires Last(w.versions).completion.None? && input.providers.Some?
    ensures var s, t := Last(w.versions), After(w, input);
            && t.active == Some(Condition(False, Failed, input.providers.value))
            && SettledFrom(s.verdict, t.verdict)
            && t == s.(active := t.active, verdict := t.verdict)
            && Apply(w, Reconcile(|w.versions| - 1, input)).held.None?
  {
    AfterFlow(w, input);
  }

  /** A pass that gets as far as the environment: no provider error, and the requests were listed. */
  predicate Reaches(s: Status, input: Input) {
    && s.completion.None? && input.providers.None? && !input.requestsFail
    && s.environment.Some? && !ReasonIs(s.environment, Failed)
  }

  /** It finds neither a failed request nor an environment, and the jobs can be listed. */
  predicate Idles(s: Status, input: Input) {
    Reaches(s, input) && NoneFailed(input.requests) && input.environments == Some(false) && input.jobs.Some?
  }

  /** Conditions that are missing are set one after the other, each by a pass of its own. */
  lemma {:induction false} InitialOutcome(w: World, input: Input)
    requires Last(w.versions).completion.None? && input.providers.None?
    ensures var s, t, started := Last(w.versions), After(w, input), Some(Condition(False, Pending, "Reconciliation started"));
            && (s.environment.None? ==> t == s.(environment := started))
            && (s.suiteRunner.None? && Idles(s, input) ==> t == s.(suiteRunner := started))
            && (s.active.None? && s.suiteRunner.Some? && !SuiteRunnerFailed(s) && !ReasonIs(s.environment, Completed) && Idles(s, input) ==>
                  t == s.(active := started, verdict := if s.verdict.Unset? then Jobs.NoVerdict else s.verdict))
  {
    AfterFlow(w, input);
    FirstFailureMeaning(input.requests);
  }

  /** What a pass makes of the environment: the first failed request fails it, with its message
      and a verdict; otherwise a listed environment makes it ready; otherwise it stays. */
  lemma {:induction false} EnvironmentOutcome(w: World, input: Input, i: nat)
    requires Reaches(Last(w.versions), input)
    ensures IsFirstFailure(input.requests, i) ==>
              && After(w, input).environment == Some(Condition(False, Failed, input.requests[i].value.message))
              && SettledFrom(Last(w.versions).verdict, After(w, input).verdict)
    ensures NoneFailed(input.requests) && input.environments == Some(true) ==>
              After(w, input).environment == Some(Condition(True, Completed, "Environment ready"))
    ensures NoneFailed(input.requests) && input.environments != Some(true) ==>
              After(w, input).environment == Last(w.versions).environment
  {
    FirstFailureMeaning(input.requests);
    AfterFlow(w, input);
    EnvironmentKept(Last(w.versions), Answered(w, input));
  }

  lemma {:induction false} EnvironmentKept(s: Status, input: Input)
    ensures !SuiteRunnerPart(s, input).Fail? ==> SuiteRunnerPart(s, input).status.environment == s.environment
    ensures !ActivePart(s, input).Fail? ==> ActivePart(s, input).status.environment == s.environment
  {
  }

  /** A pass that gets as far as the jobs of a suite runner that has not finished. */
  predicate Watches(s: Status, input: Input) {
    && Reaches(s, input) && NoneFailed(input.requests) && ReasonIs(s.environment, Completed)
    && (input.environments == Some(false) || (input.environments == Some(true) && s.environment == Some(ENVIRONMENT_READY)))
    && s.suiteRunner.Some? && !ReasonIs(s.suiteRunner, Failed) && !ReasonIs(s.suiteRunner, Completed)
  }

  /** Such a pass ends with what it does about the suite runner, or goes on to the Active condition. */
  lemma {:induction false} WatchingFlow(s: Status, input: Input)
    requires Watches(s, input)
    ensures var third := SuiteRunnerPart(s, input);
            Reconciled(s, input) == if third.Continue? then ActivePart(third.status, input) else third
  {
    FirstFailureMeaning(input.requests);
  }

  lemma {:induction false} ActiveKeepsSuiteRunner(s: Status, input: Input)
    requires !SuiteRunnerFailed(s) && !ReasonIs(s.suiteRunner, Completed) && !ReasonIs(s.environment, Failed)
    ensures ActivePart(s, input).Write? ==>
              && ActivePart(s, input).status.suiteRunner == s.suiteRunner
              && (!s.verdict.Unset? ==> ActivePart(s, input).status.verdict == s.verdict)
  {
  }

  /** What a pass makes of the suite runner when its jobs are listed. */
  lemma {:induction false} SuiteRunnerOutcome(w: World, input: Input)
    requires Watches(Last(w.versions), input)
    ensures var s, t := Last(w.versions), After(w, input);
            && (input.jobs == Some(Jobs.ActiveJobs) ==>
                  && t.suiteRunner == Some(Condition(True, Active, "Job is running"))
                  && t.verdict == (if s.verdict.Unset? then Jobs.NoVerdict else s.verdict))
            && (input.jobs == Some(Jobs.FailedJobs) ==> SuiteRunnerFailed(t) && FailureExplained(s, input, t))
            && (JobSucceeded(input) ==> Concludes(t, input))
            && (input.jobs == Some(Jobs.SuccessfulJobs) && !JobSucceeded(input) ==>
                  SuiteRunnerFailed(t) && FailureExplained(s, input, t))
    ensures input.jobs.None? ==> After(w, input) == Last(w.versions)
  {
    var s, answered := Last(w.versions), Answered(w, input);
    AfterFlow(w, input);
    WatchingFlow(s, answered);
    ActiveKeepsSuiteRunner(s, answered);
  }

  /** What a pass makes of the suite runner when no job is listed: it creates one, or fails. */
  lemma {:induction false} CreationOutcome(w: World, input: Input)
    requires Watches(Last(w.versions), input) && input.jobs == Some(Jobs.NoJobs)
    requires !input.deleting && !ReasonIs(Last(w.versions).suiteRunner, Starting)
    ensures if w.taken || input.creationError.Some?
            then SuiteRunnerFailed(After(w, input)) && FailureExplained(Last(w.versions), input, After(w, input))
            else After(w, input).suiteRunner == Some(Condition(False, Starting, "Suite runner job created"))
  {
    AfterFlow(w, input);
    WatchingFlow(Last(w.versions), Answered(w, input));
  }

  /** The parts before it leave the Active condition alone. */
  lemma {:induction false} ActiveUntouched(s: Status, input: Input)
    ensures !EnvironmentRequestPart(s, input).Fail? ==> EnvironmentRequestPart(s, input).status.active == s.active
    ensures !EnvironmentPart(s, input).Fail? ==> EnvironmentPart(s, input).status.active == s.active
    ensures !SuiteRunnerPart(s, input).Fail? ==> SuiteRunnerPart(s, input).status.active == s.active
  {
  }

  /** The Active condition of `t` says what suite runner and environment say: completion goes before
      failure, the failure of the suite runner before that of the environment, and failure before
      activity. The completion is dated exactly if the status is False. */
  predicate Reports(s: Status, t: Status, now: int) {
    && t.suiteRunner == s.suiteRunner && t.environment == s.environment && t.active.Some?
    && var c := t.active.value;
    && (c.reason == Completed <==> ReasonIs(s.suiteRunner, Completed))
    && (c.reason == Failed <==>
          !ReasonIs(s.suiteRunner, Completed) && (SuiteRunnerFailed(s) || ReasonIs(s.environment, Failed)))
    && (c.reason == Failed && SuiteRunnerFailed(s) ==> c.message == s.suiteRunner.value.message)
    && (c.reason == Failed && !SuiteRunnerFailed(s) ==> c.message == s.environment.value.message)
    && (c.reason == Completed || c.reason == Failed || (c.reason == Active && ReasonIs(s.suiteRunner, Active)))
    && (c.status == False <==> c.reason != Active) && (c.status == True <==> c.reason == Active)
    && t.completion == (if c.status == False then Some(now) else None)
  }

  lemma {:induction false} PartReports(s: Status, input: Input)
    requires s.active.Some? && s.completion.None?
    requires ActivePart(s, input).Write? && ActivePart(s, input).status.active != s.active
    ensures Reports(s, ActivePart(s, input).status, input.now)
  {
  }

  /** The Active condition of a test run that was initialised changes in a reconciling pass only to
      report on its suite runner and environment. */
  lemma {:induction false} ActiveChanges(w: World, input: Input)
    requires var s := Last(w.versions); Good(s) && s.completion.None? && s.active.Some? && input.providers.None?
    requires After(w, input).active != Last(w.versions).active
    ensures Reports(Last(w.versions), After(w, input), input.now)
  {
    var s, answered := Last(w.versions), Answered(w, input);
    AfterFlow(w, input);
    EarlyPartsKeep(s, answered);
    SuiteRunnerPartKeeps(s, answered);
    ActiveUntouched(s, answered);
    var third := SuiteRunnerPart(s, answered);
    if third.Continue? && ActivePart(third.status, answered).Write? { PartReports(third.status, answered); }
  }

  /** A failed environment is reported on the test run by the next pass that finds nothing else to
      write, together with a completion time. */
  lemma {:induction false} FailedEnvironmentReported(w: World, input: Input)
    requires var s := Last(w.versions);
             && Good(s) && s.completion.None? && s.active.Some? && s.suiteRunner.Some?
             && ReasonIs(s.environment, Failed) && !SuiteRunnerFailed(s) && !ReasonIs(s.suiteRunner, Completed)
    requires input.providers.None? && !input.cleanupFails && input.environments == Some(false) && input.jobs.Some?
    ensures var s, t := Last(w.versions), After(w, input);
            && t.active == Some(Condition(False, Failed, s.environment.value.message))
            && (s.active != t.active ==> t.completion == Some(input.now) && Settled(t))
  {
    EarlyPartsKeep(Last(w.versions), Answered(w, input));
  }

  /** A finished suite runner is reported on the test run by the next pass that still sees its job. */
  lemma {:induction false} FinishedSuiteRunnerReported(w: World, input: Input)
    requires var s := Last(w.versions);
             && Good(s) && s.completion.None? && s.active.Some?
             && s.environment == Some(ENVIRONMENT_READY) && s.suiteRunner == Some(Condition(True, Completed, input.description))
    requires input.providers.None? && !input.requestsFail && NoneFailed(input.requests) && input.environments.Some?
    requires JobSucceeded(input)
    ensures var t := After(w, input);
            && t.active == Some(Condition(False, Completed, "Suite runners finished successfully"))
            && t.completion == Some(input.now) && Concludes(t, input)
  {
    FirstFailureMeaning(input.requests);
  }
}
