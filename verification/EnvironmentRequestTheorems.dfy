/** What every run of the environment request controller guarantees, teardown included. */
module EnvironmentRequestTheorems {
  import opened Conditions
  import opened EnvironmentRequests
  import Jobs

  /** Ready is True exactly when its reason is Completed, and then the request is completed. */
  predicate Good(r: Request) {
    r.ready.Some? ==>
      && (r.ready.value.status == True <==> r.ready.value.reason == Completed)
      && (r.ready.value.status == True ==> r.completed)
  }

  /** How a version relates to any later one. */
  predicate Moves(r: Request, t: Request) {
    && (r.deleting ==> t.deleting)
    && (r.completed ==> t.completed)
    && (ReasonIs(r.ready, Failed) ==> t.ready == r.ready)
    && (r.completed ==> r.ready.Some? && t.ready.Some? && t.ready.value.reason == r.ready.value.reason && t.ready.value.status == r.ready.value.status)
    && (r.finalizer && !t.finalizer ==> t.deleting)
  }

  ghost predicate HistoryOk(v: Versions) {
    && (forall i :: 0 <= i < |v| ==> Good(v[i]) && Moves(v[i], v[i]))
    && (forall i, j :: 0 <= i < j < |v| ==> Moves(v[i], v[j]))
  }

  lemma {:induction false} Appended(v: Versions, r: Request)
    requires HistoryOk(v) && Good(r) && Moves(Last(v), r) && Moves(r, r)
    ensures HistoryOk(v + [r])
  {
    var v' := v + [r];
    forall i, j | 0 <= i < j < |v'| ensures Moves(v'[i], v'[j]) {
      if j == |v| && i < |v| - 1 { assert Moves(v[i], v[|v| - 1]); }
      else if j < |v| { assert Moves(v[i], v[j]); }
    }
  }

  lemma {:induction false} PassKeeps(r: Request, input: Input)
    requires Good(r) && Moves(r, r) && !Gone(r)
    ensures var d := PassDecision(r, input); d.Put? ==> Good(d.request) && Moves(r, d.request) && Moves(d.request, d.request)
  {
  }

  lemma {:induction false} StepKeeps(w: World, step: Step)
    requires HistoryOk(w.versions)
    ensures HistoryOk(Apply(w, step).versions)
  {
    var v, v' := w.versions, Apply(w, step).versions;
    if v' != v {
      if step.Pass? { PassKeeps(Last(v), step.input); }
      assert v' == v + [Last(v')];
      Appended(v, Last(v'));
    }
  }

  lemma {:induction false} RunKeeps(steps: seq<Step>)
    ensures HistoryOk(Run(steps).versions)
  {
    if steps == [] {
    } else {
      RunKeeps(steps[..|steps| - 1]);
      StepKeeps(Run(steps[..|steps| - 1]), steps[|steps| - 1]);
    }
  }

  /** In every version of every run, Ready is True exactly when its reason is Completed, and
      a ready request has a completion time. */
  lemma {:induction false} ReadyMeansCompleted(steps: seq<Step>, i: nat)
    requires i < |Run(steps).versions| && Run(steps).versions[i].ready.Some?
    ensures var r := Run(steps).versions[i];
            && (r.ready.value.status == True <==> r.ready.value.reason == Completed)
            && (r.ready.value.status == True ==> r.completed)
  {
    RunKeeps(steps);
    assert Good(Run(steps).versions[i]);
  }

  /** A failed request keeps the condition it failed with, teardown included; and a completed
      one keeps its status and reason. */
  lemma {:induction false} OutcomeIsFinal(steps: seq<Step>, i: nat, j: nat)
    requires i < j < |Run(steps).versions|
    ensures var r, t := Run(steps).versions[i], Run(steps).versions[j];
            && (ReasonIs(r.ready, Failed) ==> t.ready == r.ready)
            && (r.completed ==>
                  && r.ready.Some? && t.ready.Some? && t.completed
                  && t.ready.value.reason == r.ready.value.reason && t.ready.value.status == r.ready.value.status)
  {
    RunKeeps(steps);
    assert Moves(Run(steps).versions[i], Run(steps).versions[j]);
  }

  // ---------------------------------------------------------------- ready needs all four containers

  ghost predicate EverReady(v: Versions) {
    exists i :: 0 <= i < |v| && v[i].ready.Some? && v[i].ready.value.status == True
  }

  /** Every container of every successful job reported something other than failure. */
  ghost predicate AllFourSucceeded(input: Input) {
    && Successes(input) != []
    && forall job :: job in Successes(input) ==> JobSucceeded(input, job)
  }

  ghost predicate JobSucceeded(input: Input, job: Jobs.Job) {
    && !Jobs.Unreadable(job, input.pods)
    && exists n: nat :: Jobs.IsNewest(input.pods(job).value, n) && PodSucceeded(input.pods(job).value[n])
  }

  predicate PodSucceeded(pod: Jobs.Pod) {
    forall c :: 0 <= c < |CONTAINERS| ==> Jobs.TerminationReport(pod, CONTAINERS[c]).conclusion != Jobs.FailedConclusion
  }

  lemma {:induction false} NoneFailedInParts(a: seq<Jobs.Report>, b: seq<Jobs.Report>)
    requires !Jobs.AnyConclusionFailed(a + b)
    ensures !Jobs.AnyConclusionFailed(a) && !Jobs.AnyConclusionFailed(b)
  {
    assert forall i :: 0 <= i < |a| ==> a[i] == (a + b)[i];
    assert forall i :: 0 <= i < |b| ==> b[i] == (a + b)[|a| + i];
  }

  lemma {:induction false} NoneFailedInPod(pod: Jobs.Pod)
    requires !Jobs.AnyConclusionFailed(Jobs.PodReports(pod, CONTAINERS))
    ensures PodSucceeded(pod)
  {
    var own := Jobs.PodReports(pod, CONTAINERS);
    assert forall c :: 0 <= c < |CONTAINERS| ==> own[c] == Jobs.TerminationReport(pod, CONTAINERS[c]);
  }

  lemma {:induction false} NoFailureAnywhere(jobs: seq<Jobs.Job>, input: Input)
    requires !Jobs.AnyUnreadable(jobs, input.pods)
    requires !Jobs.AnyConclusionFailed(Jobs.Examined(jobs, input.pods, CONTAINERS))
    ensures forall job :: job in jobs ==> JobSucceeded(input, job)
  {
    if jobs == [] {
    } else {
      var head, rest := jobs[0], jobs[1..];
      assert head in jobs && !Jobs.Unreadable(head, input.pods);
      var pods := input.pods(head).value;
      Jobs.NewestExists(pods);
      var pod := pods[Jobs.Newest(pods)];
      NoneFailedInParts(Jobs.PodReports(pod, CONTAINERS), Jobs.Examined(rest, input.pods, CONTAINERS));
      NoneFailedInPod(pod);
      assert forall job :: job in rest ==> job in jobs;
      NoFailureAnywhere(rest, input);
      assert jobs == [head] + rest;
    }
  }

  lemma {:induction false} SuccessBehindReady(w: World, step: Step)
    requires HistoryOk(w.versions) && EverReady(Apply(w, step).versions) && !EverReady(w.versions)
    ensures step.Pass? && AllFourSucceeded(step.input)
  {
    var v, v' := w.versions, Apply(w, step).versions;
    var i :| 0 <= i < |v'| && v'[i].ready.Some? && v'[i].ready.value.status == True;
    assert v' == v + [Last(v')] && i == |v|;
    assert v[|v| - 1] == Last(v);
    assert step.Pass?;
    Jobs.StatusByClass(step.input.listing.value);
    NoFailureAnywhere(Successes(step.input), step.input);
  }

  /** Step `n` of the run is the one that first makes the request ready. */
  ghost predicate BecomesReadyAt(steps: seq<Step>, n: nat) {
    && n < |steps| && !EverReady(Run(steps[..n]).versions)
    && EverReady(Apply(Run(steps[..n]), steps[n]).versions)
  }

  lemma {:induction false} BecomesReadyEarlier(steps: seq<Step>, n: nat)
    requires steps != [] && BecomesReadyAt(steps[..|steps| - 1], n)
    ensures BecomesReadyAt(steps, n)
  {
    assert steps[..|steps| - 1][..n] == steps[..n];
  }

  /** A request becomes ready only in a pass that read, in every successful provider job, a
      result other than failure from each of the four provider containers. */
  lemma {:induction false} ReadyNeedsAllProviders(steps: seq<Step>) returns (n: nat)
    requires EverReady(Run(steps).versions)
    ensures BecomesReadyAt(steps, n) && steps[n].Pass? && AllFourSucceeded(steps[n].input)
  {
    var init := steps[..|steps| - 1];
    if EverReady(Run(init).versions) {
      n := ReadyNeedsAllProviders(init);
      BecomesReadyEarlier(steps, n);
    } else {
      RunKeeps(init);
      n := |steps| - 1;
      SuccessBehindReady(Run(init), steps[n]);
    }
  }

  // ---------------------------------------------------------------- ordered teardown

  ghost predicate EverFinalizer(v: Versions) { exists i :: 0 <= i < |v| && v[i].finalizer }

  lemma {:induction false} StepTakesFinalizer(w: World, step: Step)
    requires EverFinalizer(Apply(w, step).versions) && !Last(Apply(w, step).versions).finalizer
    requires !EverFinalizer(w.versions) || Last(w.versions).finalizer
    ensures step.Finalize? && NothingLeft(step.listings) && Last(w.versions).finalizer
  {
    var v, v' := w.versions, Apply(w, step).versions;
    var i :| 0 <= i < |v'| && v'[i].finalizer;
    assert v <= v' && |v'| <= |v| + 1;
    assert i < |v| && v[i].finalizer;
    assert Last(v) == v[|v| - 1];
  }

  /** Step `n` of the run takes the finalizer off. */
  ghost predicate LosesAt(steps: seq<Step>, n: nat) {
    && n < |steps| && Last(Run(steps[..n]).versions).finalizer
    && !Last(Apply(Run(steps[..n]), steps[n]).versions).finalizer
  }

  lemma {:induction false} LosesEarlier(steps: seq<Step>, n: nat)
    requires steps != [] && LosesAt(steps[..|steps| - 1], n)
    ensures LosesAt(steps, n)
  {
    assert steps[..|steps| - 1][..n] == steps[..n];
  }

  /** A request that had its finalizer and lost it, lost it in a pass in which all four listings
      succeeded and were empty. */
  lemma {:induction false} FinalizerGoesLast(steps: seq<Step>) returns (n: nat)
    requires EverFinalizer(Run(steps).versions) && !Last(Run(steps).versions).finalizer
    ensures LosesAt(steps, n) && steps[n].Finalize? && NothingLeft(steps[n].listings)
  {
    var init := steps[..|steps| - 1];
    if EverFinalizer(Run(init).versions) && !Last(Run(init).versions).finalizer {
      n := FinalizerGoesLast(init);
      LosesEarlier(steps, n);
    } else {
      n := |steps| - 1;
      StepTakesFinalizer(Run(init), steps[n]);
    }
  }

  // ---------------------------------------------------------------- at most one provider job

  /** A pass that reads the newest version and a job cache that only ever grows. */
  predicate UpToDate(w: World, step: Step) {
    step.Pass? ==> step.at == |w.versions| - 1 && (Announced(step.input.listing) == Some(Jobs.NoJobs) <==> w.seen == 0)
  }

  ghost predicate UpToDateAt(steps: seq<Step>, n: nat)
    requires n < |steps|
  {
    UpToDate(Run(steps[..n]), steps[n])
  }

  ghost predicate Disciplined(steps: seq<Step>) {
    forall n :: 0 <= n < |steps| ==> UpToDateAt(steps, n)
  }

  predicate JobInv(w: World) {
    && w.seen <= w.jobs <= 1
    && var r := Last(w.versions).ready;
    && (w.jobs == 1 ==> r.Some? && r.value.reason in {Starting, Active, Completed, Failed})
    && ((ReasonIs(r, Active) || ReasonIs(r, Completed)) ==> w.seen == 1)
  }

  lemma {:induction false} JobStepKeeps(w: World, step: Step)
    requires JobInv(w) && UpToDate(w, step)
    ensures JobInv(Apply(w, step))
  {
  }

  lemma {:induction false} DisciplinedInit(steps: seq<Step>)
    requires Disciplined(steps) && steps != []
    ensures Disciplined(steps[..|steps| - 1]) && UpToDate(Run(steps[..|steps| - 1]), steps[|steps| - 1])
  {
    var init := steps[..|steps| - 1];
    forall n | 0 <= n < |init| ensures UpToDateAt(init, n) {
      assert UpToDateAt(steps, n);
      assert init[..n] == steps[..n];
    }
    assert UpToDateAt(steps, |init|);
  }

  /** However far the job cache lags behind, at most one provider job is created. */
  lemma {:induction false} AtMostOneProviderJob(steps: seq<Step>)
    requires Disciplined(steps)
    ensures JobInv(Run(steps)) && Run(steps).jobs <= 1
  {
    if steps == [] {
    } else {
      var init := steps[..|steps| - 1];
      DisciplinedInit(steps);
      AtMostOneProviderJob(init);
      JobStepKeeps(Run(init), steps[|init|]);
    }
  }

  /** A version from which a pass creates a provider job when the listing is empty. */
  predicate Startable(r: Request) {
    && !r.deleting && r.finalizer && !r.completed
    && r.ready.Some? && r.ready.value.reason != Starting && r.ready.value.reason != Failed
  }

  const EMPTY_LISTING := Input(None, Some([]), (job: Jobs.Job) => None, "", None)

  /** Exactly which reads can make a pass create a provider job. */
  lemma {:induction false} CreatesExactly(w: World, at: nat)
    ensures (exists input :: Apply(w, Pass(at, input)).jobs > w.jobs) <==> at < |w.versions| && Startable(w.versions[at])
  {
    if at < |w.versions| && Startable(w.versions[at]) {
      assert Jobs.Classes([]) == [];
      assert Announced(EMPTY_LISTING.listing) == Some(Jobs.NoJobs);
      assert Apply(w, Pass(at, EMPTY_LISTING)).jobs == w.jobs + 1;
    }
  }

  ghost predicate OnceStartable(v: Versions) { exists i :: 0 <= i < |v| && Startable(v[i]) }

  lemma {:induction false} JobLeavesStartable(steps: seq<Step>)
    requires Run(steps).jobs > 0
    ensures OnceStartable(Run(steps).versions)
  {
    var init, last := steps[..|steps| - 1], steps[|steps| - 1];
    var v, v' := Run(init).versions, Run(steps).versions;
    assert v <= v';
    if Run(init).jobs > 0 {
      JobLeavesStartable(init);
      var i :| 0 <= i < |v| && Startable(v[i]);
      assert v'[i] == v[i];
    } else {
      CreatesExactly(Run(init), last.at);
      assert v'[last.at] == v[last.at];
    }
  }

  /** Without fresh reads there is always room for one more: after a run that created a job, some
      pass over an old version with an empty listing creates another. */
  lemma {:induction false} StalePassCreatesMore(steps: seq<Step>) returns (at: nat, input: Input)
    requires Run(steps).jobs > 0
    ensures at < |Run(steps).versions| && Apply(Run(steps), Pass(at, input)).jobs > Run(steps).jobs
  {
    JobLeavesStartable(steps);
    var v := Run(steps).versions;
    var i: nat :| i < |v| && Startable(v[i]);
    CreatesExactly(Run(steps), i);
    at := i;
    input :| Apply(Run(steps), Pass(i, input)).jobs > Run(steps).jobs;
  }
}
