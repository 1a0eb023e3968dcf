/**
 Turning the suites of a test run into environment requests: one request per suite and
 distinct test runner, created only if a listed request does not already stand for it.
 */
module Requests {
  import opened Totals

  /** A test, with the runner it asks for. */
  datatype Test = Test(id: string, runner: string)
  datatype Suite = Suite(name: string, tests: seq<Test>)
  datatype Request = Request(name: string, runner: string, tests: seq<Test>, minimum: int, maximum: int)

  // ---------------------------------------------------------------- grouping by runner

  /** The distinct runners, in the order in which they first appear. */
  function Runners(tests: seq<Test>): seq<string> {
    if tests == [] then []
    else
      var earlier, last := Runners(tests[..|tests| - 1]), tests[|tests| - 1].runner;
      if last in earlier then earlier else earlier + [last]
  }

  function OfRunner(tests: seq<Test>, runner: string): (own: seq<Test>)
    ensures forall t :: t in own ==> t in tests && t.runner == runner
  {
    if tests == [] then []
    else
      OfRunner(tests[..|tests| - 1], runner)
        + if tests[|tests| - 1].runner == runner then [tests[|tests| - 1]] else []
  }

  predicate Appears(tests: seq<Test>, runner: string) {
    exists i :: 0 <= i < |tests| && tests[i].runner == runner
  }

  lemma {:induction false} AppearsSnoc(tests: seq<Test>, test: Test, runner: string)
    ensures Appears(tests + [test], runner) <==> Appears(tests, runner) || test.runner == runner
  {
    var more := tests + [test];
    if i :| 0 <= i < |tests| && tests[i].runner == runner { assert more[i].runner == runner; }
    if test.runner == runner { assert more[|tests|].runner == runner; }
  }

  lemma {:induction false} RunnersDistinct(tests: seq<Test>)
    ensures NoDuplicates(Runners(tests))
    ensures forall r :: r in Runners(tests) <==> Appears(tests, r)
    ensures forall r :: r in Runners(tests) <==> OfRunner(tests, r) != []
  {
    if tests == [] {
    } else {
      var init, last := tests[..|tests| - 1], tests[|tests| - 1];
      RunnersDistinct(init);
      assert tests == init + [last];
      forall r ensures Appears(tests, r) <==> Appears(init, r) || last.runner == r { AppearsSnoc(init, last, r); }
    }
  }

  // ---------------------------------------------------------------- names

  function Digit(d: nat): char
    requires d < 10
  {
    "0123456789"[d]
  }

  function Decimal(n: nat): string {
    if n < 10 then [Digit(n)] else Decimal(n / 10) + [Digit(n % 10)]
  }

  function Position(runners: seq<string>, r: string): nat {
    if runners == [] || runners[|runners| - 1] == r then |runners| - (if runners == [] then 0 else 1)
    else Position(runners[..|runners| - 1], r)
  }

  /** A suite with one runner lends its name to its request; otherwise the position of the
      runner tells the requests apart. */
  function RequestName(suite: Suite, runner: string): string {
    var runners := Runners(suite.tests);
    if |runners| > 1 then suite.name + "-" + Decimal(Position(runners, runner)) else suite.name
  }

  function RequestFor(suite: Suite, runner: string): Request {
    var own := OfRunner(suite.tests, runner);
    Request(RequestName(suite, runner), runner, own, 1, |own|)
  }

  function Asking(tests: seq<Test>, runner: string): set<nat> {
    set i: nat | i < |tests| && tests[i].runner == runner
  }

  lemma {:induction false} AskingSnoc(tests: seq<Test>, test: Test, runner: string)
    ensures |Asking(tests + [test], runner)| == |Asking(tests, runner)| + if test.runner == runner then 1 else 0
  {
    var before, after := Asking(tests, runner), Asking(tests + [test], runner);
    if test.runner == runner {
      assert after == before + {|tests|};
    } else {
      assert after == before;
    }
  }

  lemma {:induction false} OwnCount(tests: seq<Test>, runner: string)
    ensures |OfRunner(tests, runner)| == |Asking(tests, runner)|
  {
    if tests == [] {
    } else {
      var init, last := tests[..|tests| - 1], tests[|tests| - 1];
      OwnCount(init, runner);
      assert tests == init + [last];
      AskingSnoc(init, last, runner);
    }
  }

  lemma {:induction false} OwnTests(tests: seq<Test>, runner: string, t: Test)
    ensures multiset(OfRunner(tests, runner))[t] == if t.runner == runner then multiset(tests)[t] else 0
  {
    if tests == [] {
    } else {
      var init, last := tests[..|tests| - 1], tests[|tests| - 1];
      OwnTests(init, runner, t);
      assert tests == init + [last];
    }
  }

  /** What a request asks for: at least one environment, at most as many as the suite has tests for
      the runner, and each of those tests as often as the suite has it. */
  lemma {:induction false} RequestMeaning(suite: Suite, runner: string)
    ensures var request := RequestFor(suite, runner);
            && request.runner == runner && request.minimum == 1
            && request.maximum == |Asking(suite.tests, runner)|
            && forall t :: multiset(request.tests)[t] == if t.runner == runner then multiset(suite.tests)[t] else 0
  {
    OwnCount(suite.tests, runner);
    var own := OfRunner(suite.tests, runner);
    forall t: Test ensures multiset(own)[t] == if t.runner == runner then multiset(suite.tests)[t] else 0 {
      OwnTests(suite.tests, runner, t);
    }
  }

  /** A listed request stands for a suite and runner when its name begins with the name of
      the suite and the runners agree. */
  predicate Found(listing: seq<Request>, suite: Suite, runner: string) {
    exists i :: 0 <= i < |listing| && suite.name <= listing[i].name && listing[i].runner == runner
  }

  // ---------------------------------------------------------------- creating the requests of one suite

  /** One possible order of iterating over a map with these keys. */
  ghost predicate IsOrder(order: seq<string>, runners: seq<string>) {
    NoDuplicates(order) && forall r :: r in order <==> r in runners
  }

  function Missing(suite: Suite, listing: seq<Request>, order: seq<string>): seq<Request> {
    if order == [] then []
    else
      var last := order[|order| - 1];
      Missing(suite, listing, order[..|order| - 1])
        + if Found(listing, suite, last) then [] else [RequestFor(suite, last)]
  }

  lemma {:induction false} PositionLast(runners: seq<string>, r: string)
    requires r !in runners
    ensures Position(runners + [r], r) == |runners|
  {
    assert (runners + [r])[|runners|] == r;
  }

  lemma {:induction false} PositionKept(runners: seq<string>, r: string, other: string)
    requires r != other
    ensures Position(runners + [other], r) == Position(runners, r)
  {
    assert (runners + [other])[..|runners|] == runners;
  }

  method Group(tests: seq<Test>) returns (groups: map<string, seq<Test>>, indices: map<string, nat>)
    ensures groups.Keys == set r | r in Runners(tests)
    ensures indices.Keys == groups.Keys
    ensures forall r :: r in groups ==> groups[r] == OfRunner(tests, r)
    ensures forall r :: r in indices ==> indices[r] == Position(Runners(tests), r)
  {
    groups, indices := map[], map[];
    var index := 0;
    for i := 0 to |tests|
      invariant index == |Runners(tests[..i])|
      invariant forall r :: r in indices <==> r in Runners(tests[..i])
      invariant forall r :: r in groups <==> r in Runners(tests[..i])
      invariant forall r :: r in groups ==> groups[r] == OfRunner(tests[..i], r)
      invariant forall r :: r in indices ==> indices[r] == Position(Runners(tests[..i]), r)
    {
      var test := tests[i];
      ghost var before := Runners(tests[..i]);
      assert tests[..i + 1][..i] == tests[..i];
      RunnersDistinct(tests[..i]);
      forall r | r != test.runner ensures Position(before + [test.runner], r) == Position(before, r) {
        PositionKept(before, r, test.runner);
      }
      if test.runner !in indices {
        PositionLast(before, test.runner);
        indices := indices[test.runner := index];
        index := index + 1;
      }
      groups := groups[test.runner := (if test.runner in groups then groups[test.runner] else []) + [test]];
    }
    assert tests[..|tests|] == tests;
  }

  function FirstOf<T>(all: seq<T>, n: nat): seq<T> { if n <= |all| then all[..n] else all }

  lemma {:induction false} MissingSnoc(suite: Suite, listing: seq<Request>, order: seq<string>, runner: string)
    ensures Missing(suite, listing, order + [runner])
         == Missing(suite, listing, order) + if Found(listing, suite, runner) then [] else [RequestFor(suite, runner)]
  {
    assert (order + [runner])[..|order|] == order;
  }

  lemma {:induction false} FirstOfSnoc<T>(all: seq<T>, x: T, n: nat)
    ensures FirstOf(all + [x], n) == if |all| < n then FirstOf(all, n) + [x] else FirstOf(all, n)
  {
  }

  lemma {:induction false} OneMore(order: seq<string>, runner: string)
    requires NoDuplicates(order) && runner !in order
    ensures NoDuplicates(order + [runner])
    ensures forall r :: r in order + [runner] <==> r in order || r == runner
  {
  }

  /** Builds the request for one group. */
  method Build(suite: Suite, runner: string, groups: map<string, seq<Test>>, indices: map<string, nat>) returns (request: Request)
    requires runner in groups && runner in indices && |groups| == |Runners(suite.tests)|
    requires groups[runner] == OfRunner(suite.tests, runner) && indices[runner] == Position(Runners(suite.tests), runner)
    ensures request == RequestFor(suite, runner)
  {
    var name := suite.name;
    if |groups| > 1 { name := suite.name + "-" + Decimal(indices[runner]); }
    request := Request(name, runner, groups[runner], 1, |groups[runner]|);
  }

  /** Creates the missing requests of a suite, in the order in which the map happens to be
      iterated; `succeed` creations go well, the next one ends the pass with an error. */
  method CreateEnvironmentRequests(suite: Suite, listing: seq<Request>, succeed: nat)
    returns (created: seq<Request>, ok: bool, ghost order: seq<string>)
    ensures IsOrder(order, Runners(suite.tests))
    ensures ok <==> |Missing(suite, listing, order)| <= succeed
    ensures created == FirstOf(Missing(suite, listing, order), succeed)
  {
    var groups, indices := Group(suite.tests);
    GroupCount(suite.tests, groups);
    created, ok, order := [], true, [];
    var keys := groups.Keys;
    ghost var all: seq<Request> := [];
    while keys != {}
      invariant keys <= groups.Keys && NoDuplicates(order)
      invariant forall r :: r in order <==> r in groups.Keys && r !in keys
      invariant all == Missing(suite, listing, order)
      invariant ok <==> |all| <= succeed
      invariant created == FirstOf(all, succeed)
      decreases keys
    {
      var runner :| runner in keys;
      keys := keys - {runner};
      MissingSnoc(suite, listing, order, runner);
      OneMore(order, runner);
      order := order + [runner];
      if !Found(listing, suite, runner) {
        var request := Build(suite, runner, groups, indices);
        FirstOfSnoc(all, request, succeed);
        all := all + [request];
        if ok && |created| < succeed { created := created + [request]; } else { ok := false; }
      }
    }
  }

  lemma {:induction false} GroupCount(tests: seq<Test>, groups: map<string, seq<Test>>)
    requires groups.Keys == set r | r in Runners(tests)
    ensures |groups| == |Runners(tests)|
  {
    RunnersDistinct(tests);
    CountDistinct(Runners(tests));
    assert |groups| == |groups.Keys|;
  }

  lemma {:induction false} CountDistinct(runners: seq<string>)
    requires NoDuplicates(runners)
    ensures |set r | r in runners| == |runners|
  {
    if runners == [] {
    } else {
      var init, last := runners[..|runners| - 1], runners[|runners| - 1];
      CountDistinct(init);
      assert runners == init + [last];
      assert (set r | r in runners) == (set r | r in init) + {last};
    }
  }
}
