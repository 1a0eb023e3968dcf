/**
 The job manager: classifying the jobs of an owner, announcing one status for all of
 them, and reading one result out of the termination logs of their pods.
 */
module Jobs {
  import opened Conditions

  datatype JobConditionType = CompleteCondition | FailedCondition | OtherCondition
  datatype JobCondition = JobCondition(kind: JobConditionType, status: ConditionStatus)
  datatype Job = Job(name: string, conditions: seq<JobCondition>)

  datatype JobClass = ActiveJob | FailedJob | SuccessfulJob
  datatype JobStatus = NoJobs | ActiveJobs | SuccessfulJobs | FailedJobs

  datatype Conclusion = Successful | FailedConclusion | OtherConclusion(text: string)
  datatype Verdict = Unset | NoVerdict | Passed | FailedVerdict | Inconclusive | OtherVerdict(text: string)
  datatype Report = Report(conclusion: Conclusion, verdict: Verdict)

  /** A termination message either parses as a report or it does not. */
  datatype Termination = Parsed(report: Report) | Garbled
  datatype Container = Container(name: string, terminated: Option<Termination>)
  datatype Pod = Pod(created: int, containers: seq<Container>, initContainers: seq<Container>)

  // ---------------------------------------------------------------- classes

  /** The first condition of a type decides, later ones of that type are ignored. */
  predicate PresentAndTrue(conditions: seq<JobCondition>, kind: JobConditionType) {
    conditions != [] &&
    if conditions[0].kind == kind then conditions[0].status == True else PresentAndTrue(conditions[1..], kind)
  }

  function Classify(job: Job): JobClass {
    if PresentAndTrue(job.conditions, CompleteCondition) then SuccessfulJob
    else if PresentAndTrue(job.conditions, FailedCondition) then FailedJob
    else ActiveJob
  }

  /** The first condition of this type. */
  predicate IsFirst(conditions: seq<JobCondition>, i: nat, kind: JobConditionType) {
    i < |conditions| && conditions[i].kind == kind && forall k :: 0 <= k < i ==> conditions[k].kind != kind
  }

  ghost predicate Shows(job: Job, kind: JobConditionType) {
    exists i: nat :: IsFirst(job.conditions, i, kind) && job.conditions[i].status == True
  }

  ghost predicate Succeeded(job: Job) { Shows(job, CompleteCondition) }
  ghost predicate HasFailed(job: Job) { !Succeeded(job) && Shows(job, FailedCondition) }
  ghost predicate Running(job: Job) { !Succeeded(job) && !Shows(job, FailedCondition) }

  lemma {:induction false} ShownExactly(conditions: seq<JobCondition>, kind: JobConditionType)
    ensures PresentAndTrue(conditions, kind)
       <==> exists i: nat :: IsFirst(conditions, i, kind) && conditions[i].status == True
  {
    if conditions == [] {
    } else if conditions[0].kind == kind {
      assert IsFirst(conditions, 0, kind);
    } else {
      var rest := conditions[1..];
      ShownExactly(rest, kind);
      if i: nat :| IsFirst(rest, i, kind) && rest[i].status == True { assert IsFirst(conditions, i + 1, kind); }
      if i: nat :| IsFirst(conditions, i, kind) && conditions[i].status == True {
        assert i > 0 && rest[i - 1] == conditions[i];
        assert IsFirst(rest, i - 1, kind);
      }
    }
  }

  /** What the classes are: a job succeeded if its first Complete condition is true, otherwise it
      failed if its first Failed condition is, otherwise it is active. */
  lemma {:induction false} ClassMeaning(job: Job)
    ensures Classify(job) == SuccessfulJob <==> Succeeded(job)
    ensures Classify(job) == FailedJob <==> HasFailed(job)
    ensures Classify(job) == ActiveJob <==> Running(job)
  {
    ShownExactly(job.conditions, CompleteCondition);
    ShownExactly(job.conditions, FailedCondition);
  }

  /** Looks for the first condition of a type. */
  method FindCondition(conditions: seq<JobCondition>, kind: JobConditionType) returns (present: bool)
    ensures present <==> PresentAndTrue(conditions, kind)
  {
    for i := 0 to |conditions|
      invariant forall k :: 0 <= k < i ==> conditions[k].kind != kind
    {
      if conditions[i].kind == kind {
        assert IsFirst(conditions, i, kind);
        ShownExactly(conditions, kind);
        return conditions[i].status == True;
      }
    }
    ShownExactly(conditions, kind);
    return false;
  }

  method ClassOf(job: Job) returns (class_: JobClass)
    ensures class_ == Classify(job)
  {
    var complete := FindCondition(job.conditions, CompleteCondition);
    if complete { return SuccessfulJob; }
    var failed := FindCondition(job.conditions, FailedCondition);
    if failed { return FailedJob; }
    return ActiveJob;
  }

  function OfClass(jobs: seq<Job>, class_: JobClass): seq<Job> {
    if jobs == [] then []
    else if Classify(jobs[0]) == class_ then [jobs[0]] + OfClass(jobs[1..], class_)
    else OfClass(jobs[1..], class_)
  }

  /** The status announced for a listing that was put into classes, None for the error case. */
  function Announce(classes: seq<JobClass>): Option<JobStatus> {
    if ActiveJob in classes then
      if SuccessfulJob in classes || FailedJob in classes then None else Some(ActiveJobs)
    else if SuccessfulJob in classes then Some(SuccessfulJobs)
    else if FailedJob in classes then Some(FailedJobs)
    else Some(NoJobs)
  }

  function Classes(jobs: seq<Job>): (classes: seq<JobClass>)
    ensures |classes| == |jobs|
    ensures forall i :: 0 <= i < |jobs| ==> classes[i] == Classify(jobs[i])
  {
    seq(|jobs|, i requires 0 <= i < |jobs| => Classify(jobs[i]))
  }

  lemma {:induction false} OfClassAppend(jobs: seq<Job>, job: Job, class_: JobClass)
    ensures OfClass(jobs + [job], class_)
         == OfClass(jobs, class_) + if Classify(job) == class_ then [job] else []
  {
    if jobs == [] {
      assert [job][1..] == [];
    } else {
      assert (jobs + [job])[1..] == jobs[1..] + [job];
      OfClassAppend(jobs[1..], job, class_);
    }
  }

  lemma {:induction false} OfClassMembers(jobs: seq<Job>, class_: JobClass)
    ensures forall job :: job in OfClass(jobs, class_) <==> job in jobs && Classify(job) == class_
    ensures class_ in Classes(jobs) <==> OfClass(jobs, class_) != []
  {
    if jobs == [] {
    } else {
      OfClassMembers(jobs[1..], class_);
      assert jobs == [jobs[0]] + jobs[1..];
      forall i | 0 <= i < |jobs| && Classify(jobs[i]) == class_
        ensures jobs[i] in OfClass(jobs, class_)
      {
        if i > 0 { assert jobs[i] == jobs[1..][i - 1]; }
      }
    }
  }

  /** Every listed job lands in exactly one class and no class invents one: the three
      lists together are a permutation of the listing. */
  lemma {:induction false} ClassesPartition(jobs: seq<Job>)
    ensures multiset(OfClass(jobs, ActiveJob)) + multiset(OfClass(jobs, FailedJob))
          + multiset(OfClass(jobs, SuccessfulJob)) == multiset(jobs)
  {
    if jobs == [] {
    } else {
      ClassesPartition(jobs[1..]);
      assert jobs == [jobs[0]] + jobs[1..];
    }
  }

  // ---------------------------------------------------------------- results

  function Find(containers: seq<Container>, name: string): Option<Container> {
    if containers == [] then None
    else if containers[0].name == name then Some(containers[0])
    else Find(containers[1..], name)
  }

  /** The report of one container of a pod: ordinary containers are searched before init
      containers; a container that is missing, still running or garbled counts as failed. */
  function TerminationReport(pod: Pod, name: string): Report {
    var found := if Find(pod.containers, name).Some? then Find(pod.containers, name)
                 else Find(pod.initContainers, name);
    if found.Some? && found.value.terminated.Some? && found.value.terminated.value.Parsed?
    then found.value.terminated.value.report
    else Report(FailedConclusion, Unset)
  }

  predicate IsNamed(containers: seq<Container>, i: nat, name: string) {
    i < |containers| && containers[i].name == name && forall k :: 0 <= k < i ==> containers[k].name != name
  }

  predicate Absent(containers: seq<Container>, name: string) {
    forall k :: 0 <= k < |containers| ==> containers[k].name != name
  }

  lemma {:induction false} FoundExactly(containers: seq<Container>, name: string)
    ensures Find(containers, name).None? <==> Absent(containers, name)
    ensures forall i: nat :: IsNamed(containers, i, name) ==> Find(containers, name) == Some(containers[i])
  {
    if containers == [] {
    } else if containers[0].name == name {
      assert forall i: nat :: IsNamed(containers, i, name) ==> i == 0;
    } else {
      var rest := containers[1..];
      FoundExactly(rest, name);
      assert forall k :: 0 <= k < |rest| ==> rest[k] == containers[k + 1];
      forall i: nat | IsNamed(containers, i, name) ensures Find(containers, name) == Some(containers[i]) {
        assert i > 0 && IsNamed(rest, i - 1, name);
      }
    }
  }

  /** The report a container's state stands for. */
  predicate ReportedBy(c: Container, r: Report) {
    match c.terminated
    case Some(Parsed(report)) => r == report
    case _ => r == Report(FailedConclusion, Unset)
  }

  /** Which report is read: that of the first ordinary container of the name, otherwise that of the
      first init container, and a failure if there is none, or it still runs, or wrote no report. */
  lemma {:induction false} ReportMeaning(pod: Pod, name: string)
    ensures forall i: nat :: IsNamed(pod.containers, i, name) ==> ReportedBy(pod.containers[i], TerminationReport(pod, name))
    ensures Absent(pod.containers, name) ==>
              forall i: nat :: IsNamed(pod.initContainers, i, name) ==>
                ReportedBy(pod.initContainers[i], TerminationReport(pod, name))
    ensures Absent(pod.containers, name) && Absent(pod.initContainers, name) ==>
              TerminationReport(pod, name) == Report(FailedConclusion, Unset)
  {
    FoundExactly(pod.containers, name);
    FoundExactly(pod.initContainers, name);
  }

  /** Looks for the first container of a name and reads its report. */
  method ReadContainer(containers: seq<Container>, name: string) returns (found: bool, r: Report)
    ensures found <==> Find(containers, name).Some?
    ensures found ==> ReportedBy(Find(containers, name).value, r)
  {
    for i := 0 to |containers|
      invariant Find(containers, name) == Find(containers[i..], name)
    {
      if containers[i].name == name {
        match containers[i].terminated {
          case Some(Parsed(report)) => return true, report;
          case _ => return true, Report(FailedConclusion, Unset);
        }
      }
    }
    return false, Report(FailedConclusion, Unset);
  }

  method TerminationLog(pod: Pod, name: string) returns (r: Report)
    ensures r == TerminationReport(pod, name)
  {
    var found, report := ReadContainer(pod.containers, name);
    if found { return report; }
    found, report := ReadContainer(pod.initContainers, name);
    return if found then report else Report(FailedConclusion, Unset);
  }

  function PodReports(pod: Pod, names: seq<string>): seq<Report> {
    seq(|names|, i requires 0 <= i < |names| => TerminationReport(pod, names[i]))
  }

  /** The newest pod, the first of the newest when several share a creation time. */
  predicate IsNewest(pods: seq<Pod>, n: nat) {
    n < |pods| &&
    (forall i :: 0 <= i < |pods| ==> pods[i].created <= pods[n].created) &&
    (forall i :: 0 <= i < n ==> pods[i].created < pods[n].created)
  }

  method NewestPod(pods: seq<Pod>) returns (n: nat)
    requires pods != []
    ensures IsNewest(pods, n)
  {
    n := 0;
    for i := 1 to |pods|
      invariant n < i
      invariant IsNewest(pods[..i], n)
    {
      assert pods[..i + 1] == pods[..i] + [pods[i]];
      if pods[i].created > pods[n].created {
        n := i;
      }
    }
    assert pods[..|pods|] == pods;
  }

  lemma {:induction false} NewestUnique(pods: seq<Pod>, m: nat, n: nat)
    requires IsNewest(pods, m) && IsNewest(pods, n)
    ensures m == n
  {
    assert pods[m].created <= pods[n].created <= pods[m].created;
  }

  ghost function Newest(pods: seq<Pod>): (n: nat)
    requires exists n: nat :: IsNewest(pods, n)
    ensures IsNewest(pods, n)
  {
    var n: nat :| IsNewest(pods, n); n
  }

  lemma {:induction false} NewestExists(pods: seq<Pod>)
    requires pods != []
    ensures exists n: nat :: IsNewest(pods, n)
  {
    if |pods| == 1 {
      assert IsNewest(pods, 0);
    } else {
      var init := pods[..|pods| - 1];
      NewestExists(init);
      var n: nat :| IsNewest(init, n);
      if pods[|pods| - 1].created > pods[n].created {
        assert IsNewest(pods, |pods| - 1);
      } else {
        assert IsNewest(pods, n);
      }
    }
  }

  type PodListing = Job -> Option<seq<Pod>>

  /** A job whose pods cannot be listed, or that has none. */
  predicate Unreadable(job: Job, pods: PodListing) {
    pods(job).None? || pods(job).value == []
  }

  /** The reports read from `jobs` in order, stopping at the first unreadable job. */
  ghost function Examined(jobs: seq<Job>, pods: PodListing, names: seq<string>): seq<Report> {
    if jobs == [] || Unreadable(jobs[0], pods) then []
    else
      NewestExists(pods(jobs[0]).value);
      PodReports(pods(jobs[0]).value[Newest(pods(jobs[0]).value)], names)
        + Examined(jobs[1..], pods, names)
  }

  /** What remains to be examined, one job at a time. */
  lemma {:induction false} ExaminedStep(jobs: seq<Job>, j: nat, pods: PodListing, names: seq<string>, done: seq<Report>)
    requires j < |jobs|
    ensures Unreadable(jobs[j], pods) ==> done + Examined(jobs[j..], pods, names) == done
    ensures !Unreadable(jobs[j], pods) ==>
              var listed := pods(jobs[j]).value;
              && (exists n: nat :: IsNewest(listed, n))
              && done + Examined(jobs[j..], pods, names)
                 == (done + PodReports(listed[Newest(listed)], names)) + Examined(jobs[j + 1..], pods, names)
  {
    assert jobs[j..][0] == jobs[j] && jobs[j..][1..] == jobs[j + 1..];
    if !Unreadable(jobs[j], pods) {
      var listed := pods(jobs[j]).value;
      NewestExists(listed);
      Regroup(done, PodReports(listed[Newest(listed)], names), Examined(jobs[j + 1..], pods, names));
    }
  }

  lemma {:induction false} Regroup(a: seq<Report>, b: seq<Report>, c: seq<Report>)
    ensures a + (b + c) == (a + b) + c
  {
  }

  predicate AnyUnreadable(jobs: seq<Job>, pods: PodListing) {
    exists job :: job in jobs && Unreadable(job, pods)
  }

  /** The first verdict other than "None"; an omitted verdict is also "other than None". */
  function FirstVerdict(reports: seq<Report>): Verdict {
    if reports == [] then NoVerdict
    else if reports[0].verdict != NoVerdict then reports[0].verdict
    else FirstVerdict(reports[1..])
  }

  predicate AnyVerdictFailed(reports: seq<Report>) {
    exists i :: 0 <= i < |reports| && reports[i].verdict == FailedVerdict
  }

  predicate AnyConclusionFailed(reports: seq<Report>) {
    exists i :: 0 <= i < |reports| && reports[i].conclusion == FailedConclusion
  }

  function VerdictOf(reports: seq<Report>): Verdict {
    if AnyVerdictFailed(reports) then FailedVerdict else FirstVerdict(reports)
  }

  lemma {:induction false} FirstVerdictAppend(reports: seq<Report>, r: Report)
    ensures FirstVerdict(reports + [r])
         == if FirstVerdict(reports) == NoVerdict then r.verdict else FirstVerdict(reports)
  {
    if reports == [] {
      assert [r][1..] == [];
    } else {
      assert (reports + [r])[1..] == reports[1..] + [r];
      FirstVerdictAppend(reports[1..], r);
    }
  }

  lemma {:induction false} VerdictAppend(reports: seq<Report>, r: Report)
    ensures VerdictOf(reports + [r]) ==
            (if r.verdict == FailedVerdict then FailedVerdict
             else if VerdictOf(reports) == NoVerdict then r.verdict else VerdictOf(reports))
    ensures AnyConclusionFailed(reports + [r]) <==> AnyConclusionFailed(reports) || r.conclusion == FailedConclusion
  {
    FirstVerdictAppend(reports, r);
    var all := reports + [r];
    assert all[|reports|] == r;
    assert forall i :: 0 <= i < |reports| ==> all[i] == reports[i];
  }

  /** The containers of one pod, after the reports in `start`. */
  method Examine(pod: Pod, names: seq<string>, verdict: Verdict, failed: bool, ghost start: seq<Report>)
    returns (verdict': Verdict, failed': bool)
    requires verdict == VerdictOf(start) && (failed <==> AnyConclusionFailed(start))
    ensures verdict' == VerdictOf(start + PodReports(pod, names))
    ensures failed' <==> AnyConclusionFailed(start + PodReports(pod, names))
  {
    verdict', failed' := verdict, failed;
    ghost var done := start;
    for c := 0 to |names|
      invariant done == start + PodReports(pod, names)[..c]
      invariant verdict' == VerdictOf(done) && (failed' <==> AnyConclusionFailed(done))
    {
      var r := TerminationLog(pod, names[c]);
      VerdictAppend(done, r);
      assert PodReports(pod, names)[..c + 1] == PodReports(pod, names)[..c] + [r];
      assert done + [r] == start + PodReports(pod, names)[..c + 1];
      if r.conclusion == FailedConclusion && !failed' { failed' := true; }
      if r.verdict == FailedVerdict && verdict' != FailedVerdict {
        verdict' := r.verdict;
      } else if verdict' == NoVerdict {
        verdict' := r.verdict;
      }
      done := done + [r];
    }
    assert PodReports(pod, names)[..|names|] == PodReports(pod, names);
  }

  /** The job manager of one owner. */
  class JobManager {
    var activeJobs: seq<Job>
    var successfulJobs: seq<Job>
    var failedJobs: seq<Job>

    constructor ()
      ensures activeJobs == [] && successfulJobs == [] && failedJobs == []
    {
      activeJobs, successfulJobs, failedJobs := [], [], [];
    }

    /** Sorts a listing into the three lists; a failed listing leaves them as they were. */
    method Refresh(listing: Option<seq<Job>>) returns (ok: bool)
      modifies this
      ensures ok <==> listing.Some?
      ensures ok ==> activeJobs == OfClass(listing.value, ActiveJob)
      ensures ok ==> failedJobs == OfClass(listing.value, FailedJob)
      ensures ok ==> successfulJobs == OfClass(listing.value, SuccessfulJob)
      ensures !ok ==> unchanged(this)
    {
      if listing.None? { return false; }
      var jobs := listing.value;
      var active, successful, failed := [], [], [];
      for i := 0 to |jobs|
        invariant active == OfClass(jobs[..i], ActiveJob)
        invariant successful == OfClass(jobs[..i], SuccessfulJob)
        invariant failed == OfClass(jobs[..i], FailedJob)
      {
        OfClassAppend(jobs[..i], jobs[i], ActiveJob);
        OfClassAppend(jobs[..i], jobs[i], SuccessfulJob);
        OfClassAppend(jobs[..i], jobs[i], FailedJob);
        assert jobs[..i + 1] == jobs[..i] + [jobs[i]];
        var class_ := ClassOf(jobs[i]);
        match class_
        case ActiveJob => active := active + [jobs[i]];
        case FailedJob => failed := failed + [jobs[i]];
        case SuccessfulJob => successful := successful + [jobs[i]];
      }
      assert jobs[..|jobs|] == jobs;
      activeJobs, failedJobs, successfulJobs := active, failed, successful;
      return true;
    }

    predicate IsActive() reads this { successfulJobs == [] && failedJobs == [] && activeJobs != [] }
    predicate IsFailed() reads this { failedJobs != [] && activeJobs == [] }
    predicate IsSuccessful() reads this { successfulJobs != [] && activeJobs == [] }
    predicate IsEmpty() reads this { successfulJobs == [] && failedJobs == [] && activeJobs == [] }

    /** One status for all the jobs of the owner. With a listing in hand it fails exactly
        when active and finished jobs coexist. */
    method Status(listing: Option<seq<Job>>) returns (status: Option<JobStatus>)
      modifies this
      ensures listing.None? ==> status.None? && unchanged(this)
      ensures listing.Some? ==> status == Announce(Classes(listing.value))
      ensures listing.Some? ==> activeJobs == OfClass(listing.value, ActiveJob)
      ensures listing.Some? ==> failedJobs == OfClass(listing.value, FailedJob)
      ensures listing.Some? ==> successfulJobs == OfClass(listing.value, SuccessfulJob)
    {
      var ok := Refresh(listing);
      if !ok { return None; }
      OfClassMembers(listing.value, ActiveJob);
      OfClassMembers(listing.value, FailedJob);
      OfClassMembers(listing.value, SuccessfulJob);
      if IsActive() { return Some(ActiveJobs); }
      if IsSuccessful() { return Some(SuccessfulJobs); }
      if IsFailed() { return Some(FailedJobs); }
      if IsEmpty() { return Some(NoJobs); }
      return None;
    }

    /** The jobs whose result is read: the successful ones if there are any, else the failed. */
    function Selected(): seq<Job>
      reads this
    {
      if IsSuccessful() then successfulJobs else if IsFailed() then failedJobs else []
    }

    /** One result for the selected jobs. `name` is examined after `names` in every pod. */
    method Result(pods: PodListing, name: string, names: seq<string>) returns (report: Report)
      ensures var examined := Examined(Selected(), pods, names + [name]);
              && report.verdict == VerdictOf(examined)
              && report.conclusion == (if AnyConclusionFailed(examined) || AnyUnreadable(Selected(), pods)
                                       then FailedConclusion else Successful)
    {
      var all := names + [name];
      var jobs := if IsSuccessful() then successfulJobs else if IsFailed() then failedJobs else [];
      var verdict, failed := NoVerdict, false;
      ghost var done: seq<Report> := [];
      var j := 0;
      while j < |jobs|
        invariant 0 <= j <= |jobs|
        invariant verdict == VerdictOf(done) && (failed <==> AnyConclusionFailed(done))
        invariant done + Examined(jobs[j..], pods, all) == Examined(jobs, pods, all)
        invariant forall i :: 0 <= i < j ==> !Unreadable(jobs[i], pods)
      {
        ExaminedStep(jobs, j, pods, all, done);
        if Unreadable(jobs[j], pods) {
          assert jobs[j] in jobs && AnyUnreadable(jobs, pods);
          return Report(FailedConclusion, verdict);
        }
        var listed := pods(jobs[j]).value;
        var n := NewestPod(listed);
        NewestUnique(listed, n, Newest(listed));
        verdict, failed := Examine(listed[n], all, verdict, failed, done);
        done := done + PodReports(listed[n], all);
        j := j + 1;
      }
      assert done == Examined(jobs, pods, all);
      return Report(if failed then FailedConclusion else Successful, verdict);
    }
  }

  lemma {:induction false} StatusByClass(jobs: seq<Job>)
    ensures var status := Announce(Classes(jobs));
            && (status.None? <==>
                (OfClass(jobs, ActiveJob) != [] && (OfClass(jobs, SuccessfulJob) != [] || OfClass(jobs, FailedJob) != [])))
            && (status == Some(NoJobs) <==> jobs == [])
            && (status == Some(SuccessfulJobs) <==> OfClass(jobs, ActiveJob) == [] && OfClass(jobs, SuccessfulJob) != [])
            && (status == Some(FailedJobs) <==> jobs != [] && forall job :: job in jobs ==> Classify(job) == FailedJob)
  {
    OfClassMembers(jobs, ActiveJob);
    OfClassMembers(jobs, SuccessfulJob);
    OfClassMembers(jobs, FailedJob);
    if jobs == [] {
    } else {
      assert Classes(jobs)[0] == Classify(jobs[0]);
      var classes := Classes(jobs);
      if forall job :: job in jobs ==> Classify(job) == FailedJob {
        assert forall i :: 0 <= i < |jobs| ==> classes[i] == FailedJob;
      }
      forall job | job in jobs ensures Classify(job) in classes {
        var i :| 0 <= i < |jobs| && jobs[i] == job;
        assert classes[i] == Classify(job);
      }
    }
  }

  /** The error case of `Status` is the coexistence of running and finished jobs, and each announced
      status says exactly what the conditions of the listed jobs show. */
  lemma {:induction false} StatusMeaning(jobs: seq<Job>)
    ensures var status := Announce(Classes(jobs));
            && (status.None? <==> (exists job :: job in jobs && Running(job)) && (exists job :: job in jobs && !Running(job)))
            && (status == Some(NoJobs) <==> jobs == [])
            && (status == Some(ActiveJobs) <==> jobs != [] && forall job :: job in jobs ==> Running(job))
            && (status == Some(SuccessfulJobs) <==>
                  (forall job :: job in jobs ==> !Running(job)) && exists job :: job in jobs && Succeeded(job))
            && (status == Some(FailedJobs) <==> jobs != [] && forall job :: job in jobs ==> HasFailed(job))
  {
    StatusByClass(jobs);
    OfClassMembers(jobs, ActiveJob);
    OfClassMembers(jobs, SuccessfulJob);
    OfClassMembers(jobs, FailedJob);
    forall job ensures Classify(job) == SuccessfulJob <==> Succeeded(job)
      ensures Classify(job) == FailedJob <==> HasFailed(job)
      ensures Classify(job) == ActiveJob <==> Running(job) { ClassMeaning(job); }
    MembersOf(jobs, ActiveJob);
    MembersOf(jobs, SuccessfulJob);
    MembersOf(jobs, FailedJob);
    if jobs == [] {
    } else {
      assert jobs[0] in jobs;
    }
  }

  lemma {:induction false} MembersOf(jobs: seq<Job>, class_: JobClass)
    ensures OfClass(jobs, class_) != [] <==> exists job :: job in jobs && Classify(job) == class_
  {
    OfClassMembers(jobs, class_);
    var own := OfClass(jobs, class_);
    if own == [] {
    } else {
      assert own[0] in own;
    }
  }
}
