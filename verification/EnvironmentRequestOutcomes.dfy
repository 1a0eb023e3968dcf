/**
 What a pass over the newest version of an environment request reports, in terms of the
 conditions of the listed provider jobs and the termination reports of their containers.
 */
module EnvironmentRequestOutcomes {
  import opened Conditions
  import opened EnvironmentRequests
  import opened EnvironmentRequestTheorems
  import Jobs

  // ---------------------------------------------------------------- the listed jobs

  /** No listed job is running. */
  ghost predicate AllFinished(jobs: seq<Jobs.Job>) {
    forall job :: job in jobs ==> !Jobs.Running(job)
  }

  ghost predicate AllRunning(jobs: seq<Jobs.Job>) {
    jobs != [] && forall job :: job in jobs ==> Jobs.Running(job)
  }

  /** No listed job is running, some job succeeded, and in every job that did each of the four
      provider containers reported something other than failure. */
  ghost predicate Delivered(jobs: seq<Jobs.Job>, input: Input) {
    && AllFinished(jobs)
    && (exists job :: job in jobs && Jobs.Succeeded(job))
    && forall job :: job in jobs && Jobs.Succeeded(job) ==> JobSucceeded(input, job)
  }

  lemma {:induction false} SuccessesOf(jobs: seq<Jobs.Job>)
    ensures forall job :: job in Jobs.OfClass(jobs, Jobs.SuccessfulJob) <==> job in jobs && Jobs.Succeeded(job)
  {
    Jobs.OfClassMembers(jobs, Jobs.SuccessfulJob);
    forall job ensures Jobs.Classify(job) == Jobs.SuccessfulJob <==> Jobs.Succeeded(job) { Jobs.ClassMeaning(job); }
  }

  /** The converse of `NoFailureAnywhere`. */
  lemma {:induction false} SuccessEverywhere(jobs: seq<Jobs.Job>, input: Input)
    requires forall job :: job in jobs ==> JobSucceeded(input, job)
    ensures !Jobs.AnyUnreadable(jobs, input.pods)
    ensures !Jobs.AnyConclusionFailed(Jobs.Examined(jobs, input.pods, CONTAINERS))
  {
    if jobs == [] {
    } else {
      var head, rest := jobs[0], jobs[1..];
      assert JobSucceeded(input, head);
      var pods := input.pods(head).value;
      var n: nat :| Jobs.IsNewest(pods, n) && PodSucceeded(pods[n]);
      Jobs.NewestUnique(pods, n, Jobs.Newest(pods));
      SuccessEverywhere(rest, input);
    }
  }

  /** The result read from the successful jobs is good exactly if each of them delivered. */
  lemma {:induction false} ResultMeaning(input: Input)
    requires input.listing.Some?
    ensures !ResultFailed(input) <==>
              forall job :: job in input.listing.value && Jobs.Succeeded(job) ==> JobSucceeded(input, job)
  {
    var jobs := Successes(input);
    SuccessesOf(input.listing.value);
    if !ResultFailed(input) { NoFailureAnywhere(jobs, input); }
    if forall job :: job in jobs ==> JobSucceeded(input, job) { SuccessEverywhere(jobs, input); }
  }

  /** Jobs of which none is running and none succeeded have all failed. */
  lemma {:induction false} FinishedWithout(jobs: seq<Jobs.Job>)
    ensures AllFinished(jobs) && !(exists job :: job in jobs && Jobs.Succeeded(job)) ==>
              forall job :: job in jobs ==> Jobs.HasFailed(job)
  {
  }

  /** What the announced status stands for. */
  lemma {:induction false} AnnouncedMeaning(input: Input)
    requires input.listing.Some? && input.listing.value != []
    ensures var jobs, status := input.listing.value, Announced(input.listing);
            && status != Some(Jobs.NoJobs)
            && (status == Some(Jobs.SuccessfulJobs) && !ResultFailed(input) <==> Delivered(jobs, input))
            && (status == Some(Jobs.SuccessfulJobs) || status == Some(Jobs.FailedJobs) <==> AllFinished(jobs))
            && (status == Some(Jobs.ActiveJobs) <==> AllRunning(jobs))
  {
    var jobs := input.listing.value;
    Jobs.StatusMeaning(jobs);
    ResultMeaning(input);
    assert jobs[0] in jobs;
    FinishedWithout(jobs);
  }

  // ---------------------------------------------------------------- what a pass reports

  /** A pass over this version gets as far as the provider jobs. */
  predicate Waiting(r: Request) {
    && !r.deleting && r.finalizer && !r.completed
    && r.ready.Some? && !ReasonIs(r.ready, Failed)
  }

  ghost function After(w: World, input: Input): World { Apply(w, Pass(|w.versions| - 1, input)) }

  predicate Shows(r: Request, status: ConditionStatus, reason: Reason) {
    r.ready.Some? && r.ready.value.status == status && r.ready.value.reason == reason
  }

  lemma {:induction false} AfterDecision(w: World, input: Input)
    requires Waiting(Last(w.versions)) && input.providers.None?
    ensures var d := ProviderDecision(Last(w.versions), input);
            && Last(After(w, input).versions) == (if d.Put? then d.request else Last(w.versions))
            && After(w, input).jobs == (if d.Put? && d.createdJob then w.jobs + 1 else w.jobs)
  {
  }

  /** What the announced status of the listed jobs means for a waiting request. */
  lemma {:induction false} ProviderOutcome(w: World, input: Input)
    requires HistoryOk(w.versions) && Waiting(Last(w.versions))
    requires input.providers.None? && input.listing.Some? && input.listing.value != []
    ensures var jobs, r, t := input.listing.value, Last(w.versions), Last(After(w, input).versions);
            && After(w, input).jobs == w.jobs && t == r.(ready := t.ready, completed := t.completed)
            // Ready and completed exactly if the providers delivered.
            && (Shows(t, True, Completed) && t.completed <==> Delivered(jobs, input))
            // Failed and completed exactly if all jobs are finished and the providers did not deliver.
            && (Shows(t, False, Failed) && t.completed <==> AllFinished(jobs) && !Delivered(jobs, input))
            && (AllFinished(jobs) ==> t.ready.value.message == input.description)
            // Running, and not completed, exactly if all jobs run, or some do and it said so before.
            && (Shows(t, False, Active) <==> AllRunning(jobs) || (!AllFinished(jobs) && Shows(r, False, Active)))
            && (AllRunning(jobs) ==> t == r.(ready := Some(Condition(False, Active, "Environment provider is running"))))
            // A mixture of running and finished jobs changes nothing.
            && (!AllRunning(jobs) && !AllFinished(jobs) ==> t == r)
  {
    assert Good(Last(w.versions)) by { assert Good(w.versions[|w.versions| - 1]); }
    AnnouncedMeaning(input);
    AfterDecision(w, input);
  }

  /** Without a listed job a waiting request gets one, unless it was just created or cannot be. */
  lemma {:induction false} NoJobOutcome(w: World, input: Input)
    requires Waiting(Last(w.versions)) && input.providers.None? && input.listing == Some([])
    ensures var r, t := Last(w.versions), Last(After(w, input).versions);
            && t == r.(ready := t.ready)
            && (After(w, input).jobs == w.jobs + 1 <==> !ReasonIs(r.ready, Starting) && input.creationError.None?)
            && (After(w, input).jobs != w.jobs + 1 ==> After(w, input).jobs == w.jobs)
            && (ReasonIs(r.ready, Starting) ==> t == r)
            && (!ReasonIs(r.ready, Starting) && input.creationError.Some? ==>
                  t.ready == Some(Condition(False, Failed, input.creationError.value)))
            && (!ReasonIs(r.ready, Starting) && input.creationError.None? ==> Shows(t, False, Starting))
  {
    Jobs.StatusMeaning([]);
    AfterDecision(w, input);
  }

  /** A failed provider check fails the request before any job is looked at. */
  lemma {:induction false} ProviderCheckOutcome(w: World, input: Input)
    requires Waiting(Last(w.versions)) && input.providers.Some?
    ensures var r, t := Last(w.versions), Last(After(w, input).versions);
            && t == r.(ready := Some(Condition(False, Failed, "Provider check failed: " + input.providers.value)))
            && After(w, input).jobs == w.jobs
  {
  }

  /** Teardown of the newest version is announced in its condition, unless it failed: the message
      changes, status and reason stay. */
  lemma {:induction false} MarkOutcome(w: World)
    requires UnderTeardown(w.versions, |w.versions| - 1)
    ensures var r, t := Last(w.versions), Last(Apply(w, Mark(|w.versions| - 1)).versions);
            && t == r.(ready := t.ready)
            && (ReasonIs(r.ready, Failed) ==> t == r)
            && (!ReasonIs(r.ready, Failed) ==> t.ready.Some? && t.ready.value.message == "Releasing environment")
            && (r.ready.Some? ==> Shows(t, r.ready.value.status, r.ready.value.reason))
            && (r.ready.None? ==> Shows(t, False, Unstated))
  {
    var r := Last(w.versions);
    if Marked(r) != r { assert Stored(w.versions, |w.versions| - 1, Marked(r)) == w.versions + [Marked(r)]; }
  }

  /** A new request gets its finalizer first, then its condition. */
  lemma {:induction false} InitialOutcome(w: World, input: Input)
    requires !Last(w.versions).deleting && !Last(w.versions).completed
    ensures var r, t := Last(w.versions), Last(After(w, input).versions);
            && (!r.finalizer ==> t == r.(finalizer := true))
            && (r.finalizer && r.ready.None? ==> t == r.(ready := Some(Condition(False, Pending, "Reconciliation started"))))
  {
  }
}
