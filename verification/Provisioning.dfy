/**
 The environment provider: it pairs the provided IUTs, log areas and execution spaces of a
 request into environments and deals the tests of the request to them. Together with the
 grouping of suites into requests this is the way of every test from a suite to an
 environment.
 */
module Provisioning {
  import opened Conditions
  import opened Requests
  import opened RequestRestart
  import opened Splitter
  import opened Totals

  datatype Environment = Environment(iut: string, logArea: string, executionSpace: string, tests: seq<Test>)

  /** How provisioning ends: a listing failed, too few resources, a division by zero in the
      splitter, an environment could not be created after some others were, or success. */
  datatype Provision =
    | Unlisted
    | NotEnough
    | DividedByZero
    | Stopped(created: seq<Environment>)
    | Provisioned(environments: seq<Environment>)

  datatype Resources = Resources(iuts: seq<string>, logAreas: seq<string>, executionSpaces: seq<string>)

  function Min(a: int, b: int): int { if a < b then a else b }

  /** As many environments as the scarcest resource allows. */
  function Possible(r: Resources): nat {
    Min(Min(|r.iuts|, |r.logAreas|), |r.executionSpaces|)
  }

  function Paired(r: Resources, buckets: seq<seq<Test>>, i: nat): Environment
    requires i < Possible(r) && |buckets| == Possible(r)
  {
    Environment(r.iuts[i], r.logAreas[i], r.executionSpaces[i], buckets[i])
  }

  function Environments(r: Resources, buckets: seq<seq<Test>>): (all: seq<Environment>)
    requires |buckets| == Possible(r)
    ensures |all| == |buckets|
  {
    seq(|buckets|, i requires 0 <= i < |buckets| => Paired(r, buckets, i))
  }

  /** What provisioning a request amounts to when `succeed` creations go well. */
  function Outcome(request: Request, resources: Option<Resources>, succeed: nat): Provision {
    if resources.None? then Unlisted
    else
      var n := Possible(resources.value);
      if n < Min(request.maximum, request.minimum) then NotEnough
      else if n == 0 then (if request.tests == [] then Provisioned([]) else DividedByZero)
      else
        var all := Environments(resources.value, Deal(request.tests, n));
        if succeed < n then Stopped(all[..succeed]) else Provisioned(all)
  }

  method DealTests(tests: seq<Test>, n: nat) returns (buckets: seq<seq<Test>>)
    requires n > 0
    ensures buckets == Deal(tests, n)
  {
    var splitter := new RoundRobin<Test>();
    splitter.SetSize(n);
    for i := 0 to |tests|
      invariant |splitter.suites| == n && splitter.current == i
      invariant splitter.suites == Deal(tests[..i], n)
    {
      assert tests[..i + 1] == tests[..i] + [tests[i]];
      splitter.AddTest(tests[i], tests[..i]);
    }
    assert tests[..|tests|] == tests;
    return splitter.Split();
  }

  method Provide(request: Request, resources: Option<Resources>, succeed: nat) returns (result: Provision)
    ensures result == Outcome(request, resources, succeed)
  {
    if resources.None? { return Unlisted; }
    var r := resources.value;
    var minRequired := Min(request.maximum, request.minimum);
    var maxPossible := Min(Min(|r.iuts|, |r.logAreas|), |r.executionSpaces|);
    if maxPossible < minRequired { return NotEnough; }
    if maxPossible == 0 {
      return if request.tests == [] then Provisioned([]) else DividedByZero;
    }
    var buckets := DealTests(request.tests, maxPossible);
    var created: seq<Environment> := [];
    ghost var all := Environments(r, buckets);
    for i := 0 to maxPossible
      invariant i <= succeed && created == all[..i]
    {
      if i == succeed { return Stopped(created); }
      created := created + [Environment(r.iuts[i], r.logAreas[i], r.executionSpaces[i], buckets[i])];
    }
    return Provisioned(created);
  }

  // ---------------------------------------------------------------- one request

  /** There are this many of every kind of resource. */
  predicate Covers(r: Resources, n: int) { n <= |r.iuts| && n <= |r.logAreas| && n <= |r.executionSpaces| }

  /** Some kind of resource has at most this many. */
  predicate Exhausts(r: Resources, n: nat) { |r.iuts| <= n || |r.logAreas| <= n || |r.executionSpaces| <= n }

  /** How provisioning ends, for every request: there is enough when the minimum or the maximum is
      covered, and creation is over when some kind of resource is used up. */
  lemma {:induction false} OutcomeExactly(request: Request, resources: Option<Resources>, succeed: nat)
    ensures var result := Outcome(request, resources, succeed);
            && (result.Unlisted? <==> resources.None?)
            && (resources.Some? ==>
                  var r := resources.value;
                  var enough := Covers(r, request.minimum) || Covers(r, request.maximum);
                  && (result.NotEnough? <==> !enough)
                  && (result.DividedByZero? <==> enough && Exhausts(r, 0) && request.tests != [])
                  && (result.Stopped? <==> enough && !Exhausts(r, succeed))
                  && (result.Stopped? ==> |result.created| == succeed)
                  && (result.Provisioned? <==> enough && Exhausts(r, succeed) && (Exhausts(r, 0) ==> request.tests == [])))
  {
  }

  /** A provisioned request has one environment for each of the scarcest resource, each with the
      resources of its own position. */
  lemma {:induction false} ProvisionsMost(request: Request, resources: Resources, succeed: nat)
    requires Outcome(request, Some(resources), succeed).Provisioned?
    ensures var all := Outcome(request, Some(resources), succeed).environments;
            && Covers(resources, |all|) && Exhausts(resources, |all|)
            && forall i :: 0 <= i < |all| ==>
                 && all[i].iut == resources.iuts[i] && all[i].logArea == resources.logAreas[i]
                 && all[i].executionSpace == resources.executionSpaces[i]
  {
  }

  function Contents(environments: seq<Environment>): seq<seq<Test>> {
    seq(|environments|, i requires 0 <= i < |environments| => environments[i].tests)
  }

  /** It never does for the requests a test run creates. */
  lemma {:induction false} TestRunRequestsNeverDivideByZero(suite: Suite, runner: string, resources: Option<Resources>, succeed: nat)
    requires runner in Runners(suite.tests)
    ensures !Outcome(RequestFor(suite, runner), resources, succeed).DividedByZero?
  {
    RunnersDistinct(suite.tests);
  }

  lemma {:induction false} ProvisionedIsDealt(request: Request, resources: Resources, succeed: nat)
    requires Outcome(request, Some(resources), succeed).Provisioned? && Possible(resources) > 0
    ensures Contents(Outcome(request, Some(resources), succeed).environments) == Deal(request.tests, Possible(resources))
  {
  }

  lemma {:induction false} SomeEnvironment(suite: Suite, runner: string, resources: Option<Resources>, succeed: nat)
    requires runner in Runners(suite.tests) && Outcome(RequestFor(suite, runner), resources, succeed).Provisioned?
    ensures resources.Some? && Possible(resources.value) > 0
  {
    RunnersDistinct(suite.tests);
  }

  /** A provisioned request has all its tests in its environments, each exactly as often as in
      the request; all environments run tests of the one runner the request is for. */
  lemma {:induction false} ProvisionedKeepsTests(suite: Suite, runner: string, resources: Option<Resources>, succeed: nat)
    requires runner in Runners(suite.tests) && Outcome(RequestFor(suite, runner), resources, succeed).Provisioned?
    ensures var contents := Contents(Outcome(RequestFor(suite, runner), resources, succeed).environments);
            && contents != []
            && Pooled(contents) == multiset(OfRunner(suite.tests, runner))
            && forall i, t :: 0 <= i < |contents| && t in contents[i] ==> t.runner == runner
  {
    SomeEnvironment(suite, runner, resources, succeed);
    var tests := OfRunner(suite.tests, runner);
    var n := Possible(resources.value);
    ProvisionedIsDealt(RequestFor(suite, runner), resources.value, succeed);
    DealConserves(tests, n);
    forall i, t | 0 <= i < n && t in Deal(tests, n)[i] ensures t.runner == runner { DealtFrom(tests, n, i, t); }
  }

  /** Environments of a request share no resource. */
  lemma {:induction false} ProvisionedSharesNothing(request: Request, resources: Resources, succeed: nat, i: nat, j: nat)
    requires NoDuplicates(resources.iuts) && NoDuplicates(resources.logAreas) && NoDuplicates(resources.executionSpaces)
    requires Outcome(request, Some(resources), succeed).Provisioned?
    requires i < j < |Outcome(request, Some(resources), succeed).environments|
    ensures var all := Outcome(request, Some(resources), succeed).environments;
            && all[i].iut != all[j].iut && all[i].logArea != all[j].logArea
            && all[i].executionSpace != all[j].executionSpace
  {
  }

  // ---------------------------------------------------------------- all suites of a test run

  /** What is known about provisioning each request. */
  type Supply = Tag -> Option<Resources>

  ghost function ResultOf(suites: seq<Suite>, supply: Supply, t: Tag): Provision
    requires t.suite < |suites|
  {
    var request := RequestFor(suites[t.suite], t.runner);
    var resources := supply(t);
    Outcome(request, resources, if resources.Some? then Possible(resources.value) else 0)
  }

  /** Every request was created and provisioned. */
  ghost predicate AllProvisioned(suites: seq<Suite>, tags: seq<Tag>, supply: Supply) {
    Complete(suites, tags) && forall t :: Valid(suites, t) ==> ResultOf(suites, supply, t).Provisioned?
  }

  function TestsOf(suites: seq<Suite>): multiset<Test> {
    if suites == [] then multiset{} else TestsOf(suites[..|suites| - 1]) + multiset(suites[|suites| - 1].tests)
  }

  ghost function InEnvironmentsOf(suites: seq<Suite>, supply: Supply, t: Tag): multiset<Test> {
    if t.suite < |suites| && ResultOf(suites, supply, t).Provisioned?
    then Pooled(Contents(ResultOf(suites, supply, t).environments)) else multiset{}
  }

  /** All tests in all environments of these requests. */
  ghost function TestsIn(suites: seq<Suite>, tags: seq<Tag>, supply: Supply): multiset<Test> {
    Total((t: Tag) => InEnvironmentsOf(suites, supply, t), tags)
  }

  function RequestedBy(suites: seq<Suite>): Tag -> multiset<Test> {
    (t: Tag) => if t.suite < |suites| then multiset(OfRunner(suites[t.suite].tests, t.runner)) else multiset{}
  }

  lemma {:induction false} ProvisionedIsRequested(suites: seq<Suite>, tags: seq<Tag>, supply: Supply)
    requires AllProvisioned(suites, tags, supply)
    ensures TestsIn(suites, tags, supply) == Total(RequestedBy(suites), tags)
  {
    forall i | 0 <= i < |tags| ensures InEnvironmentsOf(suites, supply, tags[i]) == RequestedBy(suites)(tags[i]) {
      var t := tags[i];
      assert t in tags && Valid(suites, t) && ResultOf(suites, supply, t).Provisioned?;
      ProvisionedKeepsTests(suites[t.suite], t.runner, supply(t), if supply(t).Some? then Possible(supply(t).value) else 0);
    }
    TotalSame((t: Tag) => InEnvironmentsOf(suites, supply, t), RequestedBy(suites), tags, tags);
  }

  // Grouping loses nothing.

  function RunnerPart(tests: seq<Test>): string -> multiset<Test> {
    (runner: string) => multiset(OfRunner(tests, runner))
  }

  lemma {:induction false} OfRunnerSnoc(tests: seq<Test>, test: Test, runner: string)
    ensures RunnerPart(tests + [test])(runner) == RunnerPart(tests)(runner) + if test.runner == runner then multiset{test} else multiset{}
  {
    assert (tests + [test])[..|tests|] == tests;
  }

  lemma {:induction false} GroupedSnoc(tests: seq<Test>, test: Test, runners: seq<string>)
    requires NoDuplicates(runners)
    ensures Total(RunnerPart(tests + [test]), runners)
         == Total(RunnerPart(tests), runners) + if test.runner in runners then multiset{test} else multiset{}
  {
    if runners == [] {
    } else {
      var init, last := runners[..|runners| - 1], runners[|runners| - 1];
      assert runners == init + [last];
      GroupedSnoc(tests, test, init);
      OfRunnerSnoc(tests, test, last);
    }
  }

  lemma {:induction false} GroupingConserves(tests: seq<Test>)
    ensures Total(RunnerPart(tests), Runners(tests)) == multiset(tests)
  {
    if tests == [] {
    } else {
      var init, last := tests[..|tests| - 1], tests[|tests| - 1];
      assert tests == init + [last];
      GroupingConserves(init);
      RunnersDistinct(init);
      GroupedSnoc(init, last, Runners(init));
      if last.runner !in Runners(init) {
        assert OfRunner(init, last.runner) == [];
        OfRunnerSnoc(init, last, last.runner);
        TotalSnoc(RunnerPart(tests), Runners(init), last.runner);
      }
    }
  }

  function TagsOf(j: nat, runners: seq<string>): seq<Tag> {
    seq(|runners|, i requires 0 <= i < |runners| => Tag(j, runners[i]))
  }

  function AllTags(suites: seq<Suite>): seq<Tag> {
    if suites == [] then []
    else AllTags(suites[..|suites| - 1]) + TagsOf(|suites| - 1, Runners(suites[|suites| - 1].tests))
  }

  lemma {:induction false} TagsOfMembers(j: nat, runners: seq<string>)
    ensures forall t :: t in TagsOf(j, runners) <==> t.suite == j && t.runner in runners
  {
    forall t: Tag | t.suite == j && t.runner in runners ensures t in TagsOf(j, runners) {
      var i :| 0 <= i < |runners| && runners[i] == t.runner;
      assert TagsOf(j, runners)[i] == t;
    }
  }

  lemma {:induction false} AllTagsComplete(suites: seq<Suite>)
    ensures Complete(suites, AllTags(suites))
  {
    if suites == [] {
    } else {
      var init, j := suites[..|suites| - 1], |suites| - 1;
      AllTagsComplete(init);
      RunnersDistinct(suites[j].tests);
      TagsOfMembers(j, Runners(suites[j].tests));
      assert forall t :: t in AllTags(init) <==> Valid(init, t);
      assert forall i :: 0 <= i < |AllTags(init)| ==> AllTags(init)[i] in AllTags(init);
    }
  }

  lemma {:induction false} AllRequested(suites: seq<Suite>)
    ensures Total(RequestedBy(suites), AllTags(suites)) == TestsOf(suites)
  {
    if suites == [] {
    } else {
      var init, j := suites[..|suites| - 1], |suites| - 1;
      AllRequested(init);
      AllTagsComplete(init);
      var earlier := AllTags(init);
      forall i | 0 <= i < |earlier| ensures RequestedBy(init)(earlier[i]) == RequestedBy(suites)(earlier[i]) {
        assert earlier[i] in earlier && Valid(init, earlier[i]);
      }
      TotalSame(RequestedBy(init), RequestedBy(suites), earlier, earlier);
      TotalAppend(RequestedBy(suites), earlier, TagsOf(j, Runners(suites[j].tests)));
      var runners := Runners(suites[j].tests);
      TotalSame(RequestedBy(suites), RunnerPart(suites[j].tests), TagsOf(j, runners), runners);
      GroupingConserves(suites[j].tests);
    }
  }

  /** When all suites have been turned into requests and every request was provisioned, the
      tests in all environments together are exactly the tests in all suites. */
  lemma {:induction false} NoTestLostOrDoubled(suites: seq<Suite>, tags: seq<Tag>, supply: Supply)
    requires AllProvisioned(suites, tags, supply)
    ensures TestsIn(suites, tags, supply) == TestsOf(suites)
  {
    ProvisionedIsRequested(suites, tags, supply);
    AllTagsComplete(suites);
    TotalPermuted(RequestedBy(suites), tags, AllTags(suites));
    AllRequested(suites);
  }
}
