# ETOS controllers: a Dafny model

ETOS runs test suites in Kubernetes. A TestRun is turned into EnvironmentRequests; providers
create IUTs, LogAreas and ExecutionSpaces for them; Environments take these resources over, run
tests with them and release them. This project models the parts of ETOS in which several actors
meet, and proves what holds in every run:

- the **handoff** of resources from their own controllers to Environments and their release
  (`Handoff*.dfy`). Controllers work on snapshots of any age, writes succeed only on the newest
  version of an object, and everything may interleave. The store keeps the history of every
  object; a snapshot is a position in it;
- the **TestRun** and **EnvironmentRequest** state machines (`TestRuns.dfy`,
  `EnvironmentRequests.dfy`, their theorems and outcomes), with the job manager both depend on
  (`Jobs.dfy`);
- the **message publisher** with its wait group, its shutdown and its books (`Publisher*.dfy`);
- **test distribution** from suites through requests to environments (`Requests.dfy`,
  `RequestRestart.dfy`, `Splitter.dfy`, `Provisioning.dfy`, `Totals.dfy`);
- the **conversion** between v1alpha1 and v1beta1 (`Rendering.dfy`, `Conversion.dfy`), **name
  normalisation** (`Names.dfy`) and the **admission webhooks** (`ProviderAdmission.dfy`,
  `Defaulting.dfy`).

Code that changes objects in place is modelled by classes and methods, loops by loops. A protocol
is a total step function on a world; a step whose guard does not hold changes nothing, so every
sequence of steps is a run and a theorem about `Run(steps)` is a theorem about every interleaving.
The answers of the API server, the clock, generated UUIDs and errors of calls are parameters or
steps. Every lemma carries `{:induction false}`, so no proof rests on automatic induction.
`dafny verify dfyconfig.toml` verifies all files.

## What does not hold as it stands

Some promises the design suggests are not kept by the code. Each has a lemma with a concrete run or
input, or a construction of one, and a lemma that says exactly when the promise is kept.

- An Environment checks its deadline in the pass that initialises it, before it has taken its
  providers. If the deadline has passed by then, the Environment is timed out, deleted, and its
  release job covers resources that still belong to their own controllers, which release them too
  (`HandoffWitnesses.PendingExpiryReleasesTwice`). A resource can still be released by both paths
  exactly when no Environment took it, the Environment naming it timed out in that pass or has not
  finished that pass yet, and neither path is closed (`HandoffDoubleRelease.DoubleReleaseExactly`).
  An Environment past its initial condition holds its three providers at every moment of a run
  exactly when the deadline did not fire in that pass (`HandoffTheorems.HoldingExactly`).
- An Environment can complete on cached reads of its providers from before it took them; the release
  finalizer then stays on them (`HandoffStaleRead.StaleReadLeavesFinalizer`). It is off a provider
  for good exactly when it is off at the moment of completion, and a read from after the takeover or
  the deletion guarantees that (`HandoffTheorems.CompletionLeavesNoFinalizer`).
- A send can hit the channel that `Close` of the publisher has closed
  (`Publisher.LatePublishPanics`), exactly when a `Publish` is between its closed-check and its `Add`
  as `Close` starts (`Publisher.PanicsExactly`).
- Request creation can be interrupted and restarted exactly when no request of an earlier suite
  has a name beginning with the name of a later suite that uses the same runner
  (`RequestRestart.RestartableExactly`, `RequestRestart.PrefixedSuitesBreak`). Names generated by the
  conversion satisfy this for any number of suites, although "suite-1" is a prefix of "suite-10".
- A suite runner job carries the name of its TestRun, so a pass that creates one while it exists is
  told that it exists already, and writes that down as a failure. If the status write after the
  creation is lost to another writer and the job is not listed yet, the next pass so fails the
  TestRun over its own job (`TestRunTheorems.LostWriteFailsTestRun`). This can happen exactly on the
  newest version, while that does not say that a job was created
  (`TestRunTheorems.FailsOverOwnJobExactly`); with fresh reads it does not
  (`TestRunTheorems.FreshReadsDoNotFail`).
- Provider jobs have generated names. A pass over a stale EnvironmentRequest can therefore always
  create another one (`EnvironmentRequestTheorems.StalePassCreatesMore`); exactly which versions do
  that is `EnvironmentRequestTheorems.CreatesExactly`, and with fresh reads there is at most one.
- A completion is overwritten by the deadline check of the same pass
  (`TestRunTheorems.DeadlineOverwritesCompletion`). A completed TestRun never changes again exactly
  when no pass stands on its newest version (`TestRunTheorems.FrozenExactly`).
- A TestRun that names a cluster that does not exist passes validation
  (`Defaulting.MissingClusterPasses`). The cluster of an admitted TestRun exists exactly when the
  TestRun named none or one that exists (`Defaulting.ClusterExistsExactly`).

One comment differs from its code: in `Result` (internal/controller/jobs/job.go:104-129) a verdict
is said to be taken over if it is not None; the code also takes over an omitted verdict. The model
follows the code.

## Model

| member | source | states |
|---|---|---|
| Jobs.ClassesPartition | internal/controller/jobs/job.go:194-242 | every listed job is in exactly one of the lists active, failed and successful, as often as it was listed |
| Jobs.OfClassMembers | internal/controller/jobs/job.go:224-242 | a list holds exactly the jobs of its class |
| Jobs.ClassMeaning | internal/controller/jobs/job.go:224-242 | what the classes are: succeeded if the first Complete condition is True, otherwise failed if the first Failed condition is, otherwise active |
| Jobs.FindCondition | internal/controller/jobs/job.go:224-242 | the search through the conditions is decided by the first of its type |
| Jobs.ClassOf | internal/controller/jobs/job.go:224-242 | Complete is looked at before Failed |
| Jobs.JobManager.Refresh | internal/controller/jobs/job.go:194-221 | a listing replaces the three lists by its jobs of each class, in order; a failed listing changes nothing |
| Jobs.JobManager.Status | internal/controller/jobs/job.go:50-67 | the status announced for a listing, and the lists it leaves behind |
| Jobs.StatusMeaning | internal/controller/jobs/job.go:50-67 | in terms of the job conditions alone: it fails exactly when running and finished jobs coexist, and what each other status says about the listed jobs |
| Jobs.NewestPod | internal/controller/jobs/job.go:245-256 | finds the first of the pods with the latest creation time |
| Jobs.NewestUnique | internal/controller/jobs/job.go:245-256 | there is only one such pod |
| Jobs.ReportMeaning | internal/controller/jobs/job.go:259-296 | the first ordinary container of a name is read, otherwise the first init container; one that is missing, still runs or wrote no report counts as failed |
| Jobs.ReadContainer | internal/controller/jobs/job.go:263-294 | the search through the containers reads the first of the name |
| Jobs.TerminationLog | internal/controller/jobs/job.go:259-296 | ordinary containers are searched before init containers |
| Jobs.Examine | internal/controller/jobs/job.go:104-130 | after the containers of one pod, verdict and failure are those of all reports so far |
| Jobs.VerdictAppend | internal/controller/jobs/job.go:104-130 | how one more report changes the overall verdict: Failed wins, otherwise the first other than None |
| Jobs.JobManager.Result | internal/controller/jobs/job.go:77-136 | reads the class that was announced; Failed exactly when an examined container failed or a job's pods are missing or cannot be listed; its verdict is that of all examined reports |
| HandoffSteps.StepKeeps | internal/controller/environment_controller.go:77-353 | every step of every actor, from snapshots of any age, keeps the invariant that ties histories, owner references, finalizers and release jobs together |
| HandoffSteps.RunKeeps | internal/controller/environment_controller.go:77-353 | the invariant holds in every run |
| HandoffSteps.ResourceStepKeeps | internal/controller/iut_controller.go:60-266 | a pass of a resource's own controller keeps the invariant |
| HandoffSteps.TakeOwnershipKeeps | internal/controller/environment_controller.go:336-353 | taking a provider over keeps it, also on top of writes of the provider's own controller |
| HandoffSteps.CreateReleaseJobKeeps | internal/controller/environment_controller.go:232-261 | creating the release job of an environment keeps it |
| HandoffSteps.ReleaseProviderKeeps | internal/controller/environment_controller.go:264-290 | letting go of a provider keeps it |
| HandoffSteps.ExpireKeeps | internal/controller/environment_controller.go:112-132 | the deadline keeps it, also when it fires on a pending environment |
| HandoffSteps.CompleteKeeps | internal/controller/environment_controller.go:187-218 | completion keeps it |
| HandoffOwnership.RunExtends | internal/controller/environment_controller.go:77-353 | histories only grow, and a finished job keeps its result |
| HandoffOwnership.ReleasedStepKeeps | cmd/iutprovider/main.go:87-112 | what a successful release job of an environment covered is being deleted or gone, because its containers delete what they release or fail |
| HandoffOwnership.DanglingIsDeleting | internal/controller/environment_controller.go:463-478 | a resource with a reference to an environment that is gone is being deleted |
| HandoffOwnership.NothingToCollect | internal/controller/environment_controller.go:336-353 | so garbage collection never finds a reference to take off a resource |
| HandoffOwnership.RunKeepsOwners | internal/controller/environment_controller.go:336-353 | in every run a resource keeps the owners it got |
| HandoffTheorems.OwnReleaseExcludesOwnership | internal/controller/iut_controller.go:150-266 | in every run a resource whose own controller created a release job was never owned by an environment, before or after |
| HandoffTheorems.EnvironmentReleaseNeedsOwnership | internal/controller/environment_controller.go:138-261 | a release job of an environment covers only resources some environment had taken, if no environment naming them expired while pending |
| HandoffTheorems.SingleReleasePath | internal/controller/environment_controller.go:138-261 | every resource is released by its own controller or by an environment, never by both, in every run in which no environment naming it expired while pending |
| HandoffTheorems.NeverUnguarded | internal/controller/iut_controller.go:69-139 | without any condition: a resource that ever had a finalizer keeps one, and stays in the store, until a release job covering it succeeded |
| HandoffTheorems.HoldingUnlessExpired | internal/controller/environment_controller.go:293-333 | an environment past its initial condition has all three providers in the store with the release finalizer, unless it expired while pending |
| HandoffTheorems.NothingHeldDuringPass | internal/controller/environment_controller.go:138-160 | the pass that initialises an environment holds none of its providers |
| HandoffTheorems.PendingExpiryBreaks | internal/controller/environment_controller.go:112-132 | a deadline that fires in that pass breaks the promise at once |
| HandoffTheorems.OnlyDeadlineExpires | internal/controller/environment_controller.go:112-132 | nothing else can make an environment time out while pending |
| HandoffOutcomes.DeadlineShownExactly | internal/controller/environment_controller.go:112-261 | in every run an environment shows that its deadline was exceeded if and only if the deadline fired, whatever was reported after it |
| HandoffOutcomes.TimedOutStays | internal/controller/environment_controller.go:161-166 | every version after one that ran out of time says so too |
| HandoffOutcomes.ReleaseOutcome | internal/controller/environment_controller.go:161-261 | the condition a releasing pass leaves, for every listing of its jobs: running, failed, not creatable, or unchanged; an exceeded deadline stays the reason |
| HandoffOutcomes.CompletionOutcome | internal/controller/environment_controller.go:187-219 | a completing pass saw a job succeed and none run, and reports Failed or Completed as the job did; an exceeded deadline stays the reason |
| HandoffOutcomes.ActivationOutcome | internal/controller/environment_controller.go:322-331 | the pass that finishes the handoff reports the environment as in use |
| HandoffOutcomes.OwnedOutcome | internal/controller/iut_controller.go:70-120 | the controller of an owned resource only takes its own finalizer off and reports use or release |
| HandoffOutcomes.OwnReleaseOutcome | internal/controller/iut_controller.go:182-260 | what a controller that releases its own resource reports for every listing of its jobs, when it completes it, and exactly when it creates a job |
| HandoffOutcomes.ReleasedOutcome | internal/controller/iut_controller.go:121-139 | the finalizer of a released resource goes exactly when it is being deleted |
| HandoffOutcomes.WaitingOutcome | internal/controller/iut_controller.go:153-173 | a resource nobody owns is marked as waiting, then protected by the finalizer |
| HandoffTheorems.HoldingExactly | internal/controller/environment_controller.go:112-132 | an environment holds its providers at every moment of a run if and only if its deadline never fired while it was pending |
| HandoffTheorems.TeardownOrdered | internal/controller/environment_controller.go:88-100 | an environment that lost its finalizer was completed by a pass that saw its release job complete and the release finalizer on none of its providers |
| HandoffTheorems.OffForGoodExactly | internal/controller/environment_controller.go:264-290 | after a successful release job, the release finalizer is off a provider for good if and only if it is off |
| HandoffTheorems.CompletionLeavesNoFinalizer | internal/controller/environment_controller.go:187-218 | a completing pass leaves a provider without the release finalizer for good if and only if it is off at that moment, and it is if the provider was read after the takeover, after its deletion, or not found |
| HandoffTheorems.NeverTakenAgain | internal/controller/environment_controller.go:336-353 | a provider that was let go is never taken again |
| HandoffWitnesses.PendingExpiryReleasesTwice | internal/controller/environment_controller.go:112-132 | a literal run in which one IUT is released by its environment and by its own controller |
| HandoffUnclaimed.RunKeepsOwnSides | internal/controller/iut_controller.go:121-266 | a resource no environment took is completed only after its own job, keeps its finalizer until then, and while it is being deleted has a version from which that job is created |
| HandoffExposure.NeverExposedAgain | internal/controller/environment_controller.go:112-160 | an environment that finished initialising in time never expires while pending |
| HandoffExposure.BothNeed | internal/controller/environment_controller.go:112-132 | what must hold of every run that some continuation ends in a release by both paths |
| HandoffDoubleRelease.EnvironmentReleases | internal/controller/environment_controller.go:112-261 | an exposed environment still in the store can come to release a resource it never took |
| HandoffDoubleRelease.OwnReleases | internal/controller/iut_controller.go:150-266 | the own controller can come to release every resource no environment took that is still in the store |
| HandoffDoubleRelease.DoubleReleaseExactly | internal/controller/environment_controller.go:112-132 | some continuation releases a resource by both paths if and only if no environment took it, its environment expired while pending or is still initialising, and each path was taken or is open |
| HandoffStaleRead.StaleReadLeavesFinalizer | internal/controller/environment_controller.go:264-290 | a run in which an environment completes on reads from before the takeover and disappears while its IUT keeps the release finalizer |
| HandoffControllers.Write | internal/controller/iut_controller.go:71-97 | a write-back is one step of the protocol; it succeeds exactly when nobody wrote since the copy was read, and then the store holds the copy |
| HandoffControllers.Report | internal/controller/iut_controller.go:82-117 | the resource of an environment is reported in use, or as being released when it is deleted |
| HandoffControllers.GiveUp | internal/controller/iut_controller.go:69-80 | takes only the provider finalizer off, and leaves a copy that is a stored version whatever others did since |
| HandoffControllers.Relinquish | internal/controller/iut_controller.go:69-120 | an uninterrupted pass over a resource an environment owns leaves it without the provider finalizer and correctly reported |
| HandoffControllers.CreateOwnJob | internal/controller/iut_controller.go:235-255 | the new job covers exactly this resource and stays, whatever others do |
| HandoffControllers.StartRelease | internal/controller/iut_controller.go:235-264 | at most two store operations of a pass: the job, then the report |
| HandoffControllers.Releaser | internal/controller/iut_controller.go:182-266 | a job is created exactly when none is listed and creation does not fail |
| HandoffControllers.Reconcile | internal/controller/iut_controller.go:60-147 | a whole pass from any version is at most two protocol steps, and creates a release job only for a resource that is deleted, not completed and owned by no environment |
| HandoffControllers.TakeOver | internal/controller/environment_controller.go:336-353 | on success the provider has a version with a controller, under any interference |
| HandoffControllers.TakeAll | internal/controller/environment_controller.go:293-315 | on success each of the three providers has a version with a controller, whatever others did in between |
| HandoffControllers.ReportActive | internal/controller/environment_controller.go:322-332 | an environment is reported active only on top of the version the pass started from |
| HandoffControllers.ReconcileEnvironment | internal/controller/environment_controller.go:293-333 | an environment that a pass reports active holds all three providers, unless its deadline once fired early |
| HandoffControllers.LetGo | internal/controller/environment_controller.go:264-290 | either the provider was read without the finalizer and nothing is written, or exactly one write is sent |
| HandoffControllers.ReleaseProviders | internal/controller/environment_controller.go:264-290 | goes on only if the finalizer was found on none of the three, and that stays so while others act |
| HandoffControllers.StartEnvironmentRelease | internal/controller/environment_controller.go:375-531 | the release job covers exactly the three named providers, all of which were read |
| HandoffControllers.CompleteEnvironment | internal/controller/environment_controller.go:187-218 | an environment is completed only after a release job of its own succeeded |
| HandoffControllers.SetEnvironmentActive | internal/controller/environment_controller.go:173-186 | a condition is written in place and stored exactly if nobody wrote since the environment was read |
| HandoffControllers.ReportCreationError | internal/controller/environment_controller.go:238-258 | a job that cannot be created is reported once: a failure that was reported is not overwritten |
| HandoffControllers.ReconcileRelease | internal/controller/environment_controller.go:164-261 | a release job is created only while the environment is being deleted and none is listed, completion needs a successful one, and a failed or running one is reported with DeadlineExceeded kept as the reason |
| HandoffControllers.CheckDeadline | internal/controller/environment_controller.go:112-132 | an overdue environment is timed out by the first pass that sees it and deleted by the next |
| HandoffControllers.HoldsOn | internal/controller/environment_controller.go:77-135 | the version a worker holds stays what it was while others act |
| HandoffControllers.Fetched.SetActive | internal/controller/iut_controller.go:82-97 | reports a change exactly when the condition differs |
| TestRuns.TestRun.SetInconclusiveIfUnset | internal/controller/utilities.go:73-79 | only an unset or None verdict becomes Inconclusive |
| TestRuns.TestRun.ReconcileEnvironmentRequest | internal/controller/testrun_controller.go:572-646 | a failed request ends a test run with a settled verdict; refines the value-level decision the theorems are about |
| TestRuns.TestRun.CheckEnvironment | internal/controller/testrun_controller.go:669-695 | Environment becomes Completed exactly when an environment is listed; refines the value-level decision |
| TestRuns.TestRun.ReconcileSuiteRunner | internal/controller/testrun_controller.go:411-569 | the in-place updates, with their shared verdict field, refine the value-level decision the theorems are about |
| TestRuns.TestRun.ReconcileActiveStatus | internal/controller/testrun_controller.go:330-408 | the overwriting tests amount to one priority: Completed over Failed over Active, a suite runner's failure over an environment's |
| TestRuns.TestRun.Reconcile | internal/controller/testrun_controller.go:285-327 | the parts in order, each only if the one before wrote nothing and did not fail |
| TestRuns.TestRun.CheckDeadline | internal/controller/testrun_controller.go:189-217 | past its deadline a test run is completed, timed out and judged in one write, on top of what the first half left in memory |
| TestRuns.FirstHalf | internal/controller/testrun_controller.go:103-186 | the first half of a pass is one step of the run, with a taken job name answered as an error, and leaves in memory what the deadline check starts from |
| TestRuns.Pass | internal/controller/testrun_controller.go:103-221 | a whole pass with interference between its two halves is a run of the state machine |
| TestRunTheorems.RunKeeps | internal/controller/testrun_controller.go:103-221 | every version of every run is judged, dated and consistent, and so is the copy a pass holds between its halves |
| TestRunTheorems.CompletedIsJudged | internal/controller/testrun_controller.go:330-408 | a completed test run has a verdict, and if it failed or timed out the verdict is not None either |
| TestRunTheorems.VerdictStays | internal/controller/testrun_controller.go:423-474 | a verdict once set never becomes empty again |
| TestRunTheorems.FinalReasonIsDated | internal/controller/testrun_controller.go:383-399 | Completed and DeadlineExceeded always come with a completion time |
| TestRunTheorems.SuiteRunnerFailureIsFinal | internal/controller/testrun_controller.go:423-437 | a failed suite runner condition never changes again |
| TestRunTheorems.CompletedIsFrozen | internal/controller/testrun_controller.go:124-159 | whatever happens afterwards, a completed test run stays as it is |
| TestRunTheorems.FrozenExactly | internal/controller/testrun_controller.go:124-217 | a completed test run never changes again if and only if no pass stands on its newest version |
| TestRunTheorems.DeadlineOverwritesCompletion | internal/controller/testrun_controller.go:189-217 | a literal run whose suite runner passes, that completes and is reported as timed out by the same pass |
| TestRunTheorems.OverduePassCompletes | internal/controller/testrun_controller.go:189-217 | an overdue pass that reaches the deadline check ends complete, timed out and judged, and stays so |
| TestRunTheorems.CompletedNeedsSuccess | internal/controller/testrun_controller.go:468-501 | the step that first shows Completed is a pass that saw the suite runner job succeed with a conclusion other than Failed, and it writes the verdict the job reported, None if it reported none |
| TestRunOutcomes.FailureIsExplained | internal/controller/testrun_controller.go:444-566 | the step that first shows a failed suite runner is a pass that saw why; it writes the reported verdict, Inconclusive instead of an empty one, except that a completed job with a failed conclusion may leave None |
| TestRunOutcomes.SuiteRunnerOutcome | internal/controller/testrun_controller.go:444-519 | condition and verdict after a pass over an unfinished suite runner, for every status of its listed jobs |
| TestRunOutcomes.CreationOutcome | internal/controller/testrun_controller.go:520-566 | without a listed job one is created, unless the name is taken or creation fails, which fails the suite runner with a verdict |
| TestRunOutcomes.EnvironmentOutcome | internal/controller/testrun_controller.go:572-695 | the first failed request fails the environment, with its message and a verdict; otherwise a listed environment makes it ready; otherwise it stays |
| TestRunOutcomes.FirstFailureMeaning | internal/controller/testrun_controller.go:622-645 | the message is that of the first failed request, and there is none exactly when no request failed |
| TestRunOutcomes.ActiveChanges | internal/controller/testrun_controller.go:330-408 | the Active condition changes only to report on suite runner and environment, by one priority, and the completion is dated exactly if its status is False |
| TestRunOutcomes.FailedEnvironmentReported | internal/controller/testrun_controller.go:330-408 | a failed environment is reported on the test run by the next pass, with its message and a completion time |
| TestRunOutcomes.FinishedSuiteRunnerReported | internal/controller/testrun_controller.go:330-408 | so is a finished suite runner, together with its verdict |
| TestRunOutcomes.ProviderCheckOutcome | internal/controller/testrun_controller.go:288-301 | a failed provider check fails and judges the test run and ends the pass |
| TestRunOutcomes.InitialOutcome | internal/controller/testrun_controller.go:330-583 | missing conditions are set one per pass |
| TestRunTheorems.AtMostOneSuiteRunner | internal/controller/testrun_controller.go:520-566 | in every run whose reads do not go back in time, however stale they and the job listings are, at most one suite runner job is ever created, also after it was deleted |
| TestRunTheorems.CreatesExactly | internal/controller/testrun_controller.go:520-566 | a pass can create a suite runner job exactly from a version with a ready environment and no sign of a job, while the name is free |
| TestRunTheorems.EndedStays | internal/controller/testrun_controller.go:124-133 | a test run whose job is deleted has ended for good, and no later version lets a pass create a job |
| TestRunTheorems.AnotherExactly | internal/controller/testrun_controller.go:895-906 | after a first job some pass over some version, however old, can create another if and only if the first was deleted |
| TestRunTheorems.FailsOverOwnJobExactly | internal/controller/testrun_controller.go:529-556 | while the job exists, a pass that lists none writes a failure over the newest version if and only if it read that version and the version has a ready environment and no sign of a job |
| TestRunTheorems.LostWriteFailsTestRun | internal/controller/testrun_controller.go:529-566 | a literal run in which the status write after the creation is lost and the next pass fails the test run over its own job |
| TestRunTheorems.FreshReadsDoNotFail | internal/controller/testrun_controller.go:524-556 | with fresh reads and a job cache that only grows no pass does that |
| EnvironmentRequests.DeleteListed | internal/controller/environmentrequest_controller.go:549-638 | the count is the length of the listing, or -1 if it failed; an error exactly when listing or a deletion failed |
| EnvironmentRequests.TearDown | internal/controller/environmentrequest_controller.go:514-535 | done exactly when all four listings succeeded and were empty: the -1 of a failed listing never cancels a positive count |
| EnvironmentRequests.EnvironmentRequest.ReconcileEnvironmentProvider | internal/controller/environmentrequest_controller.go:174-269 | writes and creates exactly what the decision function says, through the job manager |
| EnvironmentRequests.EnvironmentRequest.Reconcile | internal/controller/environmentrequest_controller.go:77-171 | the same for a whole pass |
| EnvironmentRequests.EnvironmentRequest.ReconcileDeletion | internal/controller/environmentrequest_controller.go:492-546 | the finalizer goes exactly when nothing is left and the marking, if any, was written |
| EnvironmentRequestTheorems.RunKeeps | internal/controller/environmentrequest_controller.go:77-171 | the invariant over all versions of every run, deletion included |
| EnvironmentRequestTheorems.ReadyMeansCompleted | internal/controller/environmentrequest_controller.go:183-220 | Ready is True exactly when its reason is Completed, and then there is a completion time |
| EnvironmentRequestTheorems.OutcomeIsFinal | internal/controller/environmentrequest_controller.go:132-147 | Failed is absorbing, and a completed request keeps its outcome |
| EnvironmentRequestTheorems.NoFailureAnywhere | internal/controller/jobs/job.go:77-136 | a result without failure means that all containers in the newest pod of every job succeeded |
| EnvironmentRequestTheorems.ReadyNeedsAllProviders | internal/controller/environmentrequest_controller.go:183-220 | the step that makes a request ready is a pass in which all four provider containers of every successful job had succeeded |
| EnvironmentRequestOutcomes.ProviderOutcome | internal/controller/environmentrequest_controller.go:174-269 | over the conditions of the listed jobs and their termination reports: ready exactly if none runs, one succeeded and all four containers of those that did delivered; failed for good exactly if none runs and that is not so; running if all run; otherwise unchanged |
| EnvironmentRequestOutcomes.ResultMeaning | internal/controller/jobs/job.go:77-136 | the result is good if and only if every container of every successful job reported no failure |
| EnvironmentRequestOutcomes.NoJobOutcome | internal/controller/environmentrequest_controller.go:231-267 | a job is created exactly if none is listed, none was just created and creation does not fail |
| EnvironmentRequestOutcomes.ProviderCheckOutcome | internal/controller/environmentrequest_controller.go:149-164 | a failed provider check fails the request before any job is looked at |
| EnvironmentRequestOutcomes.MarkOutcome | internal/controller/environmentrequest_controller.go:495-512 | teardown changes the message, never status or reason, and nothing on a failed request |
| EnvironmentRequestOutcomes.InitialOutcome | internal/controller/environmentrequest_controller.go:94-147 | the finalizer comes before the first condition |
| EnvironmentRequestTheorems.FinalizerGoesLast | internal/controller/environmentrequest_controller.go:514-544 | the step that takes the finalizer off a request is a pass whose four listings succeeded and were empty |
| EnvironmentRequestTheorems.AtMostOneProviderJob | internal/controller/environmentrequest_controller.go:231-266 | with fresh reads at most one provider job is created, however far the job cache lags |
| EnvironmentRequestTheorems.CreatesExactly | internal/controller/environmentrequest_controller.go:231-266 | exactly which versions can make a pass create a provider job |
| EnvironmentRequestTheorems.StalePassCreatesMore | internal/controller/environmentrequest_controller.go:231-266 | every run with a job keeps such a version, so without fresh reads another job is always possible |
| Publisher.StepKeeps | internal/messaging/rabbitmq.go:187-276 | every action of publishers, send loop, handlers and Close keeps conservation and the counter |
| Publisher.CounterIsExact | internal/messaging/rabbitmq.go:197-259 | in every run no message is lost or duplicated, and the wait group counts those accepted but neither confirmed nor dropped |
| PublisherFlow.BooksBalance | internal/messaging/rabbitmq.go:197-259 | in every run each place holds what came in and did not go out: done and to be done is what the broker confirmed, sent again and to be sent again is what it did not, dropped is what the producer refused |
| PublisherFlow.ZeroMeansAcknowledged | internal/messaging/rabbitmq.go:197-276 | with the wait group at zero every accepted message was confirmed by the broker or refused by the producer, and everything unconfirmed was sent again |
| Publisher.NothingOutstanding | internal/messaging/rabbitmq.go:262-276 | at counter zero nothing is blocked, carried, in flight or waiting in a handler |
| Publisher.CloseIsClean | internal/messaging/rabbitmq.go:262-276 | if no Publish is between check and Add when Close starts, nothing is left after the wait and no send hits the closed channel, in every continuation |
| Publisher.Drain | internal/messaging/rabbitmq.go:197-259 | the wait can always end: from every state some run brings the counter to zero |
| Publisher.LatePublishPanics | internal/messaging/rabbitmq.go:224-243 | a Publish past its check can always be driven into the closed channel |
| Publisher.PanicsExactly | internal/messaging/rabbitmq.go:224-276 | some continuation panics if and only if a Publish was past its check when Close started |
| Splitter.RoundRobin.NextIndex | pkg/splitter/roundrobin.go:40-44 | the next bucket, and the counter one further |
| Splitter.RoundRobin.AddTest | pkg/splitter/roundrobin.go:47-50 | the buckets are the tests dealt so far and this one |
| Splitter.DealtAt | pkg/splitter/roundrobin.go:34-55 | test k is at position k div n of bucket k mod n |
| Splitter.BucketIsSubsequence | pkg/splitter/roundrobin.go:34-55 | conversely each bucket holds every n-th test in order and nothing else |
| Splitter.Balanced | pkg/splitter/roundrobin.go:34-55 | bucket sizes differ by at most one |
| Splitter.InterleavingRestores | pkg/splitter/roundrobin.go:34-55 | interleaving the buckets gives back the input |
| Splitter.DealConserves | pkg/splitter/roundrobin.go:34-55 | the buckets together hold each test as often as the input |
| Requests.RunnersDistinct | internal/controller/testrun_controller.go:701-710 | the groups are the distinct runners that occur, none of them empty |
| Requests.Group | internal/controller/testrun_controller.go:701-710 | each runner gets its tests in order and a number by first appearance, independent of map order |
| Requests.Build | internal/controller/testrun_controller.go:721-729 | the request's name does not depend on map order |
| Requests.RequestMeaning | internal/controller/testrun_controller.go:769-789 | a request asks for one to as many environments as the suite has tests for its runner, and holds each of those tests as often as the suite |
| Requests.CreateEnvironmentRequests | internal/controller/testrun_controller.go:698-740 | creates the missing requests of a suite in some order of its runners, up to the first failed creation |
| RequestRestart.SuitePassIsMissing | internal/controller/testrun_controller.go:698-740 | ties the state machine below to what the method creates |
| RequestRestart.PassCreates | internal/controller/testrun_controller.go:698-740 | a pass creates exactly the missing requests, suite by suite |
| RequestRestart.RestartCompletes | internal/controller/testrun_controller.go:698-740 | after any interrupted passes, in any map orders, a full pass leaves exactly one request per suite and distinct runner |
| RequestRestart.CompleteIsStable | internal/controller/testrun_controller.go:698-740 | a pass over a complete listing creates nothing |
| RequestRestart.ShadowBreaks | internal/controller/testrun_controller.go:711-728 | a name that begins with a later suite's name makes a restart lose a request |
| RequestRestart.PrefixedSuitesBreak | internal/controller/testrun_controller.go:711-728 | two literal suites for which a restart loses a request |
| RequestRestart.RestartableExactly | internal/controller/testrun_controller.go:698-740 | creation is restartable if and only if there is no such name |
| RequestRestart.PrefixFreeIsEnough | internal/controller/testrun_controller.go:711-728 | prefix-free suite names suffice |
| RequestRestart.GeneratedNamesAreSafe | api/v1beta1/testrun_conversion.go:56-67 | generated names suffice, for any number of suites |
| Provisioning.DealTests | cmd/environmentprovider/main.go:85-89 | the splitter is fed all tests in order |
| Provisioning.Provide | cmd/environmentprovider/main.go:42-142 | the outcome of a provisioning with its error cases, up to the first failed creation |
| Provisioning.TestRunRequestsNeverDivideByZero | internal/controller/testrun_controller.go:788-789 | the splitter never divides by zero for a request created from a test run |
| Provisioning.ProvisionedKeepsTests | cmd/environmentprovider/main.go:72-142 | the environments of a request hold its tests, each as often as requested, all for one runner |
| Provisioning.ProvisionedSharesNothing | cmd/environmentprovider/main.go:109-142 | no two environments share a resource |
| Provisioning.OutcomeExactly | cmd/environmentprovider/main.go:72-142 | how provisioning ends for every request: enough means that minimum or maximum is covered by every kind of resource |
| Provisioning.ProvisionsMost | cmd/environmentprovider/main.go:73-142 | there are as many environments as the scarcest resource allows, each with the resources of its position |
| Provisioning.GroupingConserves | internal/controller/testrun_controller.go:701-710 | grouping by runner neither loses nor doubles a test |
| Provisioning.NoTestLostOrDoubled | cmd/environmentprovider/main.go:42-142 | if all suites became requests and all were provisioned, all environments together hold exactly the tests of all suites |
| Rendering.SortedUnique | api/v1beta1/common_conversion.go:101 | sorting the keys has one outcome whatever order the map yields |
| Rendering.BeforeMeaning | api/v1beta1/common_conversion.go:101 | the order of the keys is that of the first character in which they differ |
| Rendering.SortedKeys | api/v1beta1/common_conversion.go:101 | collects exactly the keys of the map, in order |
| Rendering.Render | api/v1beta1/common_conversion.go:98-114 | the command line depends only on the map |
| Rendering.DecodesExactly | api/v1beta1/common_conversion.go:98-114 | splitting the command line at spaces and each piece at its first '=' gives back the parameters if and only if no key has a space or '=' and no value has a space |
| Conversion.CaseFrom | api/v1beta1/common_conversion.go:82-87 | field by field, tracker to repository |
| Conversion.CaseTo | api/v1beta1/common_conversion.go:90-95 | field by field, repository to tracker |
| Conversion.TestFrom | api/v1beta1/common_conversion.go:53-136 | nothing of a test is lost but the division into command and parameters |
| Conversion.TestTo | api/v1beta1/common_conversion.go:69-145 | the way back, with nil made empty and parameters emptied |
| Conversion.SuiteFrom | api/v1beta1/common_conversion.go:29-38 | all tests of a suite, by position |
| Conversion.SuiteTo | api/v1beta1/common_conversion.go:41-50 | all tests of a suite, by position |
| Conversion.SuitesFrom | api/v1beta1/testrun_conversion.go:128-134 | all suites, by position |
| Conversion.SuitesTo | api/v1beta1/testrun_conversion.go:56-67 | all suites, by position, with generated names |
| Conversion.ConvertTo | api/v1beta1/testrun_conversion.go:33-98 | a whole test run to the hub version |
| Conversion.ConvertFrom | api/v1beta1/testrun_conversion.go:101-165 | a whole test run from the hub version |
| Conversion.HubMeaningKept | api/v1beta1/common_conversion.go:29-145 | hub to spoke and back keeps suites, tests, order and the command line each test stands for |
| Conversion.HubKeptExactly | api/v1beta1/testrun_conversion.go:33-167 | exactly which hub test runs come back unchanged |
| Conversion.HubSettles | api/v1beta1/testrun_conversion.go:33-167 | one round trip settles a hub test run: further ones change nothing |
| Conversion.SpokeKeeps | api/v1beta1/common_conversion.go:29-145 | spoke to hub and back keeps order, IDs, test cases, commands, checkout, pre-execution, variables and runner, with nil and empty identified |
| Conversion.SpokeKeptExactly | api/v1beta1/testrun_conversion.go:33-167 | exactly which spoke test runs come back unchanged: dependencies and additional resources have no place in the hub |
| Conversion.ConvertedRunsRestart | api/v1beta1/testrun_conversion.go:56-67 | for every spoke test run the creation of environment requests can be interrupted and restarted |
| Names.Conforms | pkg/provider/provider.go:468-483 | the result has only lower-case letters, digits and single inner hyphens, is within the limit and cut no shorter than needed; its letters and digits are the first ones of the lower-cased input |
| Names.NameIsWords | pkg/provider/provider.go:468-483 | before it is cut, the name is the words of the lower-cased input with one hyphen between any two |
| Names.NonEmptyExactly | pkg/provider/provider.go:468-483 | it is non-empty exactly when the limit is positive and the input has a letter or digit |
| Names.UnchangedExactly | pkg/provider/provider.go:468-483 | a string is left alone exactly when it is such a name and fits |
| Names.Idempotent | pkg/provider/provider.go:468-483 | a second time changes nothing |
| ProviderAdmission.ValidateDefaultLabel | internal/webhook/v1alpha1/provider_webhook.go:81-115 | a default provider is admitted exactly when the listing succeeded and shows no other |
| ProviderAdmission.ValidationMeaning | internal/webhook/v1alpha1/provider_webhook.go:81-115 | the order of the listing does not matter |
| ProviderAdmission.RejectsExactly | internal/webhook/v1alpha1/provider_webhook.go:81-115 | exactly the writes that would give a type a second default are turned away |
| ProviderAdmission.RunKeepsOneDefault | internal/webhook/v1alpha1/provider_webhook.go:62-115 | over every run of creates, updates and deletes there is at most one default per namespace and type |
| ProviderAdmission.FindDefaultProvider | internal/webhook/v1alpha1/testrun_webhook.go:192-205 | the first provider listed, or none |
| ProviderAdmission.ChoiceIsTheDefault | internal/webhook/v1alpha1/testrun_webhook.go:192-205 | on every reachable store that is the one default there is |
| ProviderAdmission.ChoiceIgnoresOrder | internal/webhook/v1alpha1/testrun_webhook.go:192-205 | whatever the order of the listing |
| Defaulting.TestRun.FillFromCluster | internal/webhook/v1alpha1/testrun_webhook.go:109-137 | images and versions left open come from the cluster, or from the configuration where it says nothing |
| Defaulting.TestRun.ResolveCluster | internal/webhook/v1alpha1/testrun_webhook.go:75-137 | the cluster named, or the only one in the namespace |
| Defaulting.TestRun.AddLabel | internal/webhook/v1alpha1/testrun_webhook.go:139-152 | the ID label is added exactly when it is missing, whatever order the map yields |
| Defaulting.TestRun.ChooseProviders | internal/webhook/v1alpha1/testrun_webhook.go:154-178 | providers left open become the default of their type |
| Defaulting.TestRun.Default | internal/webhook/v1alpha1/testrun_webhook.go:66-188 | the in-place changes amount to one function of specification and answers, about which the lemmas below are |
| Defaulting.Validate | internal/webhook/v1alpha1/testrun_webhook.go:218-282 | reports every missing field once and nothing else |
| Defaulting.DefaultingIgnoresOrder | internal/webhook/v1alpha1/testrun_webhook.go:66-188 | the outcome does not depend on the order of any listing |
| Defaulting.IdempotentExactly | internal/webhook/v1alpha1/testrun_webhook.go:66-188 | on an unchanged store a second time, with other answers, UUID and time, changes nothing, if and only if the deadline is not zero after the first time or is computed as zero again |
| Defaulting.GivenStays | internal/webhook/v1alpha1/testrun_webhook.go:66-188 | what was given stays, in particular a non-zero deadline |
| Defaulting.OpenFilled | internal/webhook/v1alpha1/testrun_webhook.go:66-152 | what open fields are filled with: the images of the named or only cluster, the configured ones where it has none, nothing without a cluster; and the new ID |
| Defaulting.DeadlineMeaning | internal/webhook/v1alpha1/testrun_webhook.go:180-183 | an open deadline becomes the time plus the timeout, wrapping around as a 64-bit signed integer |
| Defaulting.AdmittedExactly | internal/webhook/v1alpha1/testrun_webhook.go:66-282 | validation passes after defaulting exactly when a cluster is named or unique in the namespace and each provider is named or has a default |
| Defaulting.ClusterExistsExactly | internal/webhook/v1alpha1/testrun_webhook.go:75-107 | the cluster of an admitted test run exists if and only if it named none or one that exists |
| Defaulting.MissingClusterPasses | internal/webhook/v1alpha1/testrun_webhook.go:90-107 | a literal test run that names a cluster and passes although there is none |

## Left out

- Definitions of Jobs, Pods, Deployments, Services, Roles and Secrets, the cluster controller and readiness: literals and straight sequences without a hard property.
- Logging, tracing, encryption, event contents, the SSE server, the command line tools, RabbitMQ connection set-up and the pool of publishers.
- Liveness: requeueing, timers and retention; only that a wait can end is proved, not that it does.
- HandoffControllers.Reconcile: stands for the three controllers of IUTs, LogAreas and ExecutionSpaces, which differ in names and messages only.
- The result an Environment reads for its release job asks for a container named after the Environment; the description and conclusion that come out of it are parameters of the steps.
- Providers other than those of this repository, whose release containers need not delete what they release, and deletion in the foreground by a user, in which garbage collection treats owner references differently.
- HandoffDoubleRelease.DoubleReleaseExactly: is about a resource that an environment names already, among environments that do not share providers.
- HandoffControllers.ReconcileRelease: the text of the condition when a provider of the release job is missing stands for the error of the call.
- Names of deleted objects are not used again, and names made from hashes do not collide.
- Jobs removed by their time to live are jobs missing from a listing; jobs removed by others are not modelled beyond that.
- TestRunTheorems.AtMostOneSuiteRunner: reads of one cache do not go back in time; jobs are deleted by the controller alone, in passes that read the test run as ended.
- TestRunTheorems.FreshReadsDoNotFail: requires that each pass reads the newest TestRun and a job cache that only grows.
- In the handoff a release job may be created again while its name is still taken, which makes more runs possible than there are; the lemmas that construct runs create only the first release job of an owner.
- EnvironmentRequestTheorems.AtMostOneProviderJob: requires that each pass reads the newest EnvironmentRequest and a job cache that only grows, as the status write after a creation is meant to ensure.
- The failed check of providers sets Active to Failed without a completion time; the theorems about verdicts are about completed test runs.
- Deletion of resources that were provisioned but not used (`cleanupUnused`) is an ordinary deletion in the handoff.
- The publisher is a state machine over the atomic actions of its goroutines and not a class; Close is called once and the channel is never reopened.
- Splitter.RoundRobin.AddTest: the counter is unbounded; the conversion of an unsigned counter past 2^63 to a negative index is not modelled, and the buckets must have been made by one call of SetSize on a new splitter.
- In distribution a test is its ID and its runner; the other fields travel with it unchanged.
- Conversion of Environments, the sharing of slices between source and destination, and the difference between a nil and an empty list of suites or tests.
- Names.Conforms: strings are sequences of characters; bytes that are not valid UTF-8 are not modelled.
- ProviderAdmission.RunKeepsOneDefault: each write is validated on the store it is applied to; two writes validated at the same time can both be admitted.
- Defaulting.IdempotentExactly: all list calls of both times are answered; a call that fails the first time may be made up for the second time.
- Rendering.SortedKeys: the library sort is represented by insertion; its result is unique.
