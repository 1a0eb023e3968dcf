/**
 Conversion of test runs between the stored version v1alpha1 (the hub) and v1beta1 (the spoke).

 Slices and maps that Go distinguishes as nil or empty are optional values; the lists of suites
 and tests, which the conversion always allocates, are plain sequences.
 */
module Conversion {
  import opened Conditions
  import opened Rendering
  import Requests
  import RequestRestart

  type Strings = Option<seq<string>>
  type Variables = Option<map<string, string>>

  datatype Meta = Meta(name: string, generateName: string, namespace: string, labels: Variables)
  datatype Providers = Providers(iut: string, logArea: string, executionSpace: string)
  datatype Retention = Retention(failure: Option<int>, success: Option<int>)
  datatype Image = Image(image: string, pullPolicy: string)

  // The hub version.

  datatype HubCase = HubCase(id: string, version: string, tracker: string, uri: string)
  datatype HubExecution = HubExecution(checkout: Strings, parameters: Variables, environment: Variables,
                                       command: string, execute: Strings, testRunner: string)
  datatype HubTest = HubTest(id: string, testCase: HubCase, execution: HubExecution)
  datatype HubSuite = HubSuite(name: string, priority: int, tests: seq<HubTest>, dataset: Option<string>)
  datatype HubSpec = HubSpec(
    id: string, artifact: string, schemaVersion: string, identity: string, cluster: string, suiteSource: string,
    timeout: int, deadline: int, providers: Providers, retention: Retention, suites: seq<HubSuite>,
    suiteRunner: Option<Option<Image>>, logListener: Option<Option<Image>>,
    environmentProvider: Option<Option<Image>>, testRunner: Option<string>)
  datatype HubStatus = HubStatus(conditions: Strings, suiteRunners: Strings, environmentRequests: Strings,
                                 startTime: Option<int>, completionTime: Option<int>, verdict: string)
  datatype HubRun = HubRun(meta: Meta, spec: HubSpec, status: HubStatus)

  // The spoke version.

  datatype SpokeCase = SpokeCase(id: string, version: string, repository: string, uri: string)
  datatype SpokeExecution = SpokeExecution(command: string, checkout: Strings, preExecution: Strings)
  datatype SpokeEnvironment = SpokeEnvironment(testRunner: string, variables: Variables, resources: Strings)
  datatype SpokeTest = SpokeTest(id: string, dependencies: Strings, testCase: SpokeCase,
                                 execution: SpokeExecution, environment: SpokeEnvironment)
  datatype SpokeSuite = SpokeSuite(priority: int, executions: seq<SpokeTest>, dataset: Option<string>)
  datatype SpokeSpec = SpokeSpec(
    name: string, schemaVersion: string, suites: seq<SpokeSuite>, id: string, artifact: string, identity: string,
    cluster: string, providers: Providers, suiteRunner: Option<Image>, environmentProvider: Option<Image>,
    testRunner: Option<string>, suiteSource: string, timeout: int, deadline: int, retention: Retention)
  datatype SpokeStatus = SpokeStatus(conditions: Strings, environmentRequests: Strings,
                                     completionTime: Option<int>, verdict: string)
  datatype SpokeRun = SpokeRun(meta: Meta, spec: SpokeSpec, status: SpokeStatus)

  // ---------------------------------------------------------------- from the hub

  function Entries(m: Variables): map<string, string> { if m.Some? then m.value else map[] }

  function Items(s: Strings): seq<string> { if s.Some? then s.value else [] }

  /** The command line a hub execution stands for. */
  ghost function LineOf(e: HubExecution): string { CommandLine(e.command, Entries(e.parameters)) }

  ghost function SpokeTestOf(t: HubTest): SpokeTest {
    SpokeTest(
      t.id, None,
      SpokeCase(t.testCase.id, t.testCase.version, t.testCase.tracker, t.testCase.uri),
      SpokeExecution(LineOf(t.execution), t.execution.checkout, t.execution.execute),
      SpokeEnvironment(t.execution.testRunner, t.execution.environment, None))
  }

  ghost function SpokeSuiteOf(s: HubSuite): SpokeSuite {
    SpokeSuite(s.priority, seq(|s.tests|, i requires 0 <= i < |s.tests| => SpokeTestOf(s.tests[i])), s.dataset)
  }

  function Base(meta: Meta): string { if meta.name == "" then meta.generateName else meta.name }

  function GivenImage(image: Option<Option<Image>>): Image {
    if image.Some? && image.value.Some? then image.value.value else Image("", "")
  }

  function GivenVersion(version: Option<string>): string { if version.Some? then version.value else "" }

  ghost function SpokeOf(r: HubRun): SpokeRun {
    SpokeRun(
      r.meta,
      SpokeSpec(
        Base(r.meta), r.spec.schemaVersion,
        seq(|r.spec.suites|, i requires 0 <= i < |r.spec.suites| => SpokeSuiteOf(r.spec.suites[i])),
        r.spec.id, r.spec.artifact, r.spec.identity, r.spec.cluster, r.spec.providers,
        Some(GivenImage(r.spec.suiteRunner)), Some(GivenImage(r.spec.environmentProvider)),
        Some(GivenVersion(r.spec.testRunner)), r.spec.suiteSource, r.spec.timeout, r.spec.deadline, r.spec.retention),
      SpokeStatus(r.status.conditions, r.status.environmentRequests, r.status.completionTime, r.status.verdict))
  }

  method CaseFrom(src: HubCase) returns (dst: SpokeCase)
    ensures dst.id == src.id && dst.version == src.version && dst.repository == src.tracker && dst.uri == src.uri
  {
    dst := SpokeCase("", "", "", "");
    dst := dst.(id := src.id);
    dst := dst.(version := src.version);
    dst := dst.(repository := src.tracker);
    dst := dst.(uri := src.uri);
  }

  method TestFrom(src: HubTest) returns (dst: SpokeTest)
    ensures dst == SpokeTestOf(src)
  {
    var testCase := CaseFrom(src.testCase);
    var command := Render(src.execution.command, Entries(src.execution.parameters));
    var execution := SpokeExecution(command, src.execution.checkout, src.execution.execute);
    var environment := SpokeEnvironment(src.execution.testRunner, src.execution.environment, None);
    dst := SpokeTest(src.id, None, testCase, execution, environment);
  }

  method SuiteFrom(src: HubSuite) returns (dst: SpokeSuite)
    ensures dst == SpokeSuiteOf(src)
  {
    var executions := new SpokeTest[|src.tests|];
    for i := 0 to |src.tests|
      invariant forall k :: 0 <= k < i ==> executions[k] == SpokeTestOf(src.tests[k])
    {
      var execution := TestFrom(src.tests[i]);
      executions[i] := execution;
    }
    dst := SpokeSuite(src.priority, executions[..], src.dataset);
  }

  method SuitesFrom(src: seq<HubSuite>) returns (dst: seq<SpokeSuite>)
    ensures |dst| == |src| && forall i :: 0 <= i < |src| ==> dst[i] == SpokeSuiteOf(src[i])
  {
    var suites := new SpokeSuite[|src|];
    for i := 0 to |src|
      invariant forall k :: 0 <= k < i ==> suites[k] == SpokeSuiteOf(src[k])
    {
      var suite := SuiteFrom(src[i]);
      suites[i] := suite;
    }
    dst := suites[..];
  }

  method ImageFrom(src: Option<Option<Image>>) returns (dst: Option<Image>)
    ensures dst == Some(GivenImage(src))
  {
    var image := Image("", "");
    if src.Some? && src.value.Some? {
      image := image.(image := src.value.value.image);
      image := image.(pullPolicy := src.value.value.pullPolicy);
    }
    dst := Some(image);
  }

  method ConvertFrom(src: HubRun) returns (dst: SpokeRun)
    ensures dst == SpokeOf(src)
  {
    var name := src.meta.name;
    if name == "" { name := src.meta.generateName; }
    var suites := SuitesFrom(src.spec.suites);
    var suiteRunner := ImageFrom(src.spec.suiteRunner);
    var environmentProvider := ImageFrom(src.spec.environmentProvider);
    var version := "";
    if src.spec.testRunner.Some? { version := src.spec.testRunner.value; }
    var spec := SpokeSpec(
      name, src.spec.schemaVersion, suites, src.spec.id, src.spec.artifact, src.spec.identity, src.spec.cluster,
      Providers(src.spec.providers.iut, src.spec.providers.logArea, src.spec.providers.executionSpace),
      suiteRunner, environmentProvider, Some(version), src.spec.suiteSource, src.spec.timeout, src.spec.deadline,
      Retention(src.spec.retention.failure, src.spec.retention.success));
    dst := SpokeRun(src.meta, spec, SpokeStatus(src.status.conditions, src.status.environmentRequests,
                                                src.status.completionTime, src.status.verdict));
  }

  // ---------------------------------------------------------------- to the hub

  function HubTestOf(t: SpokeTest): HubTest {
    HubTest(
      t.id,
      HubCase(t.testCase.id, t.testCase.version, t.testCase.repository, t.testCase.uri),
      HubExecution(Some(Items(t.execution.checkout)), Some(map[]), Some(Entries(t.environment.variables)),
                   t.execution.command, t.execution.preExecution, t.environment.testRunner))
  }

  function HubSuiteOf(s: SpokeSuite, name: string): HubSuite {
    HubSuite(name, s.priority,
             seq(|s.executions|, i requires 0 <= i < |s.executions| => HubTestOf(s.executions[i])), s.dataset)
  }

  function HubOf(r: SpokeRun): HubRun {
    HubRun(
      r.meta,
      HubSpec(
        r.spec.id, r.spec.artifact, r.spec.schemaVersion, r.spec.identity, r.spec.cluster, r.spec.suiteSource,
        r.spec.timeout, r.spec.deadline, r.spec.providers, r.spec.retention,
        seq(|r.spec.suites|, i requires 0 <= i < |r.spec.suites| =>
              HubSuiteOf(r.spec.suites[i], RequestRestart.GeneratedName(Base(r.meta), i))),
        if r.spec.suiteRunner.Some? then Some(r.spec.suiteRunner) else None, None,
        if r.spec.environmentProvider.Some? then Some(r.spec.environmentProvider) else None,
        r.spec.testRunner),
      HubStatus(r.status.conditions, None, r.status.environmentRequests, None, r.status.completionTime,
                r.status.verdict))
  }

  method CaseTo(src: SpokeCase) returns (dst: HubCase)
    ensures dst.id == src.id && dst.version == src.version && dst.tracker == src.repository && dst.uri == src.uri
  {
    dst := HubCase("", "", "", "");
    dst := dst.(id := src.id);
    dst := dst.(version := src.version);
    dst := dst.(tracker := src.repository);
    dst := dst.(uri := src.uri);
  }

  method TestTo(src: SpokeTest) returns (dst: HubTest)
    ensures dst == HubTestOf(src)
  {
    var testCase := CaseTo(src.testCase);
    var execution := HubExecution(None, None, None, "", None, "");
    if src.execution.checkout.None? {
      execution := execution.(checkout := Some([]));
    } else {
      execution := execution.(checkout := src.execution.checkout);
    }
    execution := execution.(execute := src.execution.preExecution);
    execution := execution.(parameters := Some(map[]));
    execution := execution.(command := src.execution.command);
    if execution.environment.None? { execution := execution.(environment := Some(map[])); }
    execution := execution.(environment := Some(Entries(execution.environment) + Entries(src.environment.variables)));
    assert execution.environment.value == Entries(src.environment.variables);
    execution := execution.(testRunner := src.environment.testRunner);
    dst := HubTest(src.id, testCase, execution);
  }

  method SuiteTo(src: SpokeSuite, name: string) returns (dst: HubSuite)
    ensures dst == HubSuiteOf(src, name)
  {
    var tests := new HubTest[|src.executions|];
    for i := 0 to |src.executions|
      invariant forall k :: 0 <= k < i ==> tests[k] == HubTestOf(src.executions[k])
    {
      var test := TestTo(src.executions[i]);
      tests[i] := test;
    }
    dst := HubSuite(name, src.priority, tests[..], src.dataset);
  }

  method SuitesTo(src: seq<SpokeSuite>, meta: Meta) returns (dst: seq<HubSuite>)
    ensures |dst| == |src|
    ensures forall i :: 0 <= i < |src| ==> dst[i] == HubSuiteOf(src[i], RequestRestart.GeneratedName(Base(meta), i))
  {
    var suites := new HubSuite[|src|];
    for i := 0 to |src|
      invariant forall k :: 0 <= k < i ==> suites[k] == HubSuiteOf(src[k], RequestRestart.GeneratedName(Base(meta), k))
    {
      var name := meta.name;
      if name == "" { name := meta.generateName; }
      var suite := SuiteTo(src[i], name + "-suite-" + Requests.Decimal(i));
      suites[i] := suite;
    }
    dst := suites[..];
  }

  method ConvertTo(src: SpokeRun) returns (dst: HubRun)
    ensures dst == HubOf(src)
  {
    var suites := SuitesTo(src.spec.suites, src.meta);
    var suiteRunner: Option<Option<Image>> := None;
    if src.spec.suiteRunner.Some? {
      suiteRunner := Some(Some(Image(src.spec.suiteRunner.value.image, src.spec.suiteRunner.value.pullPolicy)));
    }
    var environmentProvider: Option<Option<Image>> := None;
    if src.spec.environmentProvider.Some? {
      var image := src.spec.environmentProvider.value;
      environmentProvider := Some(Some(Image(image.image, image.pullPolicy)));
    }
    var testRunner: Option<string> := None;
    if src.spec.testRunner.Some? { testRunner := Some(src.spec.testRunner.value); }
    var spec := HubSpec(
      src.spec.id, src.spec.artifact, src.spec.schemaVersion, src.spec.identity, src.spec.cluster,
      src.spec.suiteSource, src.spec.timeout, src.spec.deadline,
      Providers(src.spec.providers.iut, src.spec.providers.logArea, src.spec.providers.executionSpace),
      Retention(src.spec.retention.failure, src.spec.retention.success),
      suites, suiteRunner, None, environmentProvider, testRunner);
    dst := HubRun(src.meta, spec, HubStatus(src.status.conditions, None, src.status.environmentRequests, None,
                                            src.status.completionTime, src.status.verdict));
    assert dst.spec.suites == HubOf(src).spec.suites;
  }

  // ---------------------------------------------------------------- there and back from the hub

  /** What a test means when it is executed, apart from how command and parameters are divided. */
  ghost predicate SameMeaning(a: HubTest, b: HubTest) {
    && a.id == b.id && a.testCase == b.testCase && LineOf(a.execution) == LineOf(b.execution)
    && Items(a.execution.checkout) == Items(b.execution.checkout)
    && Items(a.execution.execute) == Items(b.execution.execute)
    && Entries(a.execution.environment) == Entries(b.execution.environment)
    && a.execution.testRunner == b.execution.testRunner
  }

  lemma {:induction false} MeaningKept(t: HubTest)
    ensures SameMeaning(HubTestOf(SpokeTestOf(t)), t)
  {
    NoParameters(LineOf(t.execution));
  }

  /** A hub test run converted to the spoke and back still has the same tests in the same order,
      each with the same command line. */
  lemma {:induction false} HubMeaningKept(r: HubRun)
    ensures var back := HubOf(SpokeOf(r));
            && |back.spec.suites| == |r.spec.suites|
            && forall i :: 0 <= i < |r.spec.suites| ==>
                 && |back.spec.suites[i].tests| == |r.spec.suites[i].tests|
                 && back.spec.suites[i].priority == r.spec.suites[i].priority
                 && back.spec.suites[i].dataset == r.spec.suites[i].dataset
                 && forall k :: 0 <= k < |r.spec.suites[i].tests| ==>
                      SameMeaning(back.spec.suites[i].tests[k], r.spec.suites[i].tests[k])
  {
    forall i, k | 0 <= i < |r.spec.suites| && 0 <= k < |r.spec.suites[i].tests|
      ensures SameMeaning(HubOf(SpokeOf(r)).spec.suites[i].tests[k], r.spec.suites[i].tests[k])
    {
      MeaningKept(r.spec.suites[i].tests[k]);
    }
  }

  predicate StableTest(t: HubTest) {
    t.execution.checkout.Some? && t.execution.parameters == Some(map[]) && t.execution.environment.Some?
  }

  lemma {:induction false} TestKeptExactly(t: HubTest)
    ensures HubTestOf(SpokeTestOf(t)) == t <==> StableTest(t)
  {
    NoParameters(t.execution.command);
  }

  predicate StableSuite(s: HubSuite, name: string) {
    s.name == name && forall k :: 0 <= k < |s.tests| ==> StableTest(s.tests[k])
  }

  lemma {:induction false} SuiteKeptExactly(s: HubSuite, name: string)
    ensures HubSuiteOf(SpokeSuiteOf(s), name) == s <==> StableSuite(s, name)
  {
    var back := HubSuiteOf(SpokeSuiteOf(s), name);
    forall k | 0 <= k < |s.tests| ensures back.tests[k] == s.tests[k] <==> StableTest(s.tests[k]) {
      TestKeptExactly(s.tests[k]);
    }
    if StableSuite(s, name) { assert back.tests == s.tests; }
  }

  predicate GivenInFull(image: Option<Option<Image>>) { image.Some? && image.value.Some? }

  predicate StableHub(r: HubRun) {
    && (forall i :: 0 <= i < |r.spec.suites| ==>
          StableSuite(r.spec.suites[i], RequestRestart.GeneratedName(Base(r.meta), i)))
    && GivenInFull(r.spec.suiteRunner) && GivenInFull(r.spec.environmentProvider) && r.spec.testRunner.Some?
    && r.spec.logListener.None? && r.status.suiteRunners.None? && r.status.startTime.None?
  }

  lemma {:induction false} SuitesKeptExactly(r: HubRun)
    ensures HubOf(SpokeOf(r)).spec.suites == r.spec.suites
       <==> forall i :: 0 <= i < |r.spec.suites| ==>
              StableSuite(r.spec.suites[i], RequestRestart.GeneratedName(Base(r.meta), i))
  {
    var back := HubOf(SpokeOf(r)).spec.suites;
    forall i | 0 <= i < |r.spec.suites|
      ensures back[i] == r.spec.suites[i]
         <==> StableSuite(r.spec.suites[i], RequestRestart.GeneratedName(Base(r.meta), i))
    {
      SuiteKeptExactly(r.spec.suites[i], RequestRestart.GeneratedName(Base(r.meta), i));
    }
  }

  /** Exactly which hub test runs survive the trip to the spoke and back unchanged. */
  lemma {:induction false} HubKeptExactly(r: HubRun)
    ensures HubOf(SpokeOf(r)) == r <==> StableHub(r)
  {
    SuitesKeptExactly(r);
  }

  /** One trip settles a hub test run: further trips change nothing. */
  lemma {:induction false} HubSettles(r: HubRun)
    ensures HubOf(SpokeOf(HubOf(SpokeOf(r)))) == HubOf(SpokeOf(r))
  {
    HubKeptExactly(HubOf(SpokeOf(r)));
  }

  // ---------------------------------------------------------------- there and back from the spoke

  /** The same test, with nil and empty identified, and without dependencies and resources. */
  predicate SameTest(a: SpokeTest, b: SpokeTest) {
    && a.id == b.id && a.testCase == b.testCase && a.execution.command == b.execution.command
    && Items(a.execution.checkout) == Items(b.execution.checkout)
    && a.execution.preExecution == b.execution.preExecution
    && Entries(a.environment.variables) == Entries(b.environment.variables)
    && a.environment.testRunner == b.environment.testRunner
  }

  predicate StableSpokeTest(t: SpokeTest) {
    && t.dependencies.None? && t.environment.resources.None?
    && t.execution.checkout.Some? && t.environment.variables.Some?
  }

  lemma {:induction false} SpokeTestKept(t: SpokeTest)
    ensures SameTest(SpokeTestOf(HubTestOf(t)), t)
    ensures SpokeTestOf(HubTestOf(t)) == t <==> StableSpokeTest(t)
  {
    NoParameters(t.execution.command);
  }

  /** A spoke test run converted to the hub and back keeps its suites and tests in order, each test
      up to nil and empty; what the hub has no place for is lost. */
  lemma {:induction false} SpokeKeeps(r: SpokeRun)
    ensures var back := SpokeOf(HubOf(r));
            && |back.spec.suites| == |r.spec.suites|
            && forall i :: 0 <= i < |r.spec.suites| ==>
                 && |back.spec.suites[i].executions| == |r.spec.suites[i].executions|
                 && back.spec.suites[i].priority == r.spec.suites[i].priority
                 && back.spec.suites[i].dataset == r.spec.suites[i].dataset
                 && forall k :: 0 <= k < |r.spec.suites[i].executions| ==>
                      SameTest(back.spec.suites[i].executions[k], r.spec.suites[i].executions[k])
  {
    forall i, k | 0 <= i < |r.spec.suites| && 0 <= k < |r.spec.suites[i].executions|
      ensures SameTest(SpokeOf(HubOf(r)).spec.suites[i].executions[k], r.spec.suites[i].executions[k])
    {
      SpokeTestKept(r.spec.suites[i].executions[k]);
    }
  }

  predicate StableSpokeSuite(s: SpokeSuite) {
    forall k :: 0 <= k < |s.executions| ==> StableSpokeTest(s.executions[k])
  }

  lemma {:induction false} SpokeSuiteKeptExactly(s: SpokeSuite, name: string)
    ensures SpokeSuiteOf(HubSuiteOf(s, name)) == s <==> StableSpokeSuite(s)
  {
    var back := SpokeSuiteOf(HubSuiteOf(s, name));
    forall k | 0 <= k < |s.executions|
      ensures back.executions[k] == s.executions[k] <==> StableSpokeTest(s.executions[k])
    {
      SpokeTestKept(s.executions[k]);
    }
    if StableSpokeSuite(s) { assert back.executions == s.executions; }
  }

  predicate StableSpoke(r: SpokeRun) {
    && r.spec.name == Base(r.meta)
    && (forall i :: 0 <= i < |r.spec.suites| ==> StableSpokeSuite(r.spec.suites[i]))
    && r.spec.suiteRunner.Some? && r.spec.environmentProvider.Some? && r.spec.testRunner.Some?
  }

  lemma {:induction false} SpokeSuitesKeptExactly(r: SpokeRun)
    ensures SpokeOf(HubOf(r)).spec.suites == r.spec.suites
       <==> forall i :: 0 <= i < |r.spec.suites| ==> StableSpokeSuite(r.spec.suites[i])
  {
    var back := SpokeOf(HubOf(r)).spec.suites;
    forall i | 0 <= i < |r.spec.suites|
      ensures back[i] == r.spec.suites[i] <==> StableSpokeSuite(r.spec.suites[i])
    {
      SpokeSuiteKeptExactly(r.spec.suites[i], RequestRestart.GeneratedName(Base(r.meta), i));
    }
  }

  /** Exactly which spoke test runs survive the trip to the hub and back unchanged. */
  lemma {:induction false} SpokeKeptExactly(r: SpokeRun)
    ensures SpokeOf(HubOf(r)) == r <==> StableSpoke(r)
  {
    SpokeSuitesKeptExactly(r);
  }

  // ---------------------------------------------------------------- what the controller makes of it

  /** A hub suite as the creation of environment requests sees it. */
  function Planned(s: HubSuite): Requests.Suite {
    Requests.Suite(s.name, seq(|s.tests|, i requires 0 <= i < |s.tests| =>
                                 Requests.Test(s.tests[i].id, s.tests[i].execution.testRunner)))
  }

  function Plan(suites: seq<HubSuite>): seq<Requests.Suite> {
    seq(|suites|, i requires 0 <= i < |suites| => Planned(suites[i]))
  }

  /** Whatever a spoke test run is called and however many suites it has, the creation of its
      environment requests can be interrupted and restarted. */
  lemma {:induction false} ConvertedRunsRestart(r: SpokeRun)
    ensures RequestRestart.AlwaysCompletes(Plan(HubOf(r).spec.suites))
  {
    var plan := Plan(HubOf(r).spec.suites);
    RequestRestart.GeneratedNamesAreSafe(plan, Base(r.meta));
    RequestRestart.RestartableExactly(plan);
  }
}
