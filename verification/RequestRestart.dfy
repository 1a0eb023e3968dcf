/**
 Passes over all suites that may stop after any number of creations. A request is
 identified by the suite and runner it was created for; the controller only sees its name
 and runner.
 */
module RequestRestart {
  import opened Requests
  import opened Totals

  datatype Tag = Tag(suite: nat, runner: string)

  predicate Valid(suites: seq<Suite>, t: Tag) {
    t.suite < |suites| && t.runner in Runners(suites[t.suite].tests)
  }

  /** One of the existing requests stands for the suite and runner of `t`. */
  predicate Shows(suites: seq<Suite>, tags: seq<Tag>, t: Tag)
    requires t.suite < |suites|
  {
    exists i :: 0 <= i < |tags| && StandsFor(suites, tags[i], t)
  }

  predicate StandsFor(suites: seq<Suite>, existing: Tag, t: Tag)
    requires t.suite < |suites|
  {
    && existing.suite < |suites|
    && suites[t.suite].name <= RequestName(suites[existing.suite], existing.runner)
    && existing.runner == t.runner
  }

  /** The listing the controller sees. */
  function Listing(suites: seq<Suite>, tags: seq<Tag>): seq<Request>
    requires forall i :: 0 <= i < |tags| ==> tags[i].suite < |suites|
  {
    seq(|tags|, i requires 0 <= i < |tags| => RequestFor(suites[tags[i].suite], tags[i].runner))
  }

  lemma {:induction false} ShowsMeansFound(suites: seq<Suite>, tags: seq<Tag>, t: Tag)
    requires t.suite < |suites| && forall i :: 0 <= i < |tags| ==> tags[i].suite < |suites|
    ensures Shows(suites, tags, t) <==> Found(Listing(suites, tags), suites[t.suite], t.runner)
  {
    var listing := Listing(suites, tags);
    if i :| 0 <= i < |tags| && StandsFor(suites, tags[i], t) { assert suites[t.suite].name <= listing[i].name; }
    if i :| 0 <= i < |listing| && suites[t.suite].name <= listing[i].name && listing[i].runner == t.runner {
      assert StandsFor(suites, tags[i], t);
    }
  }

  // ---------------------------------------------------------------- one pass

  /** What a pass creates for one suite, iterating its runners in `order`. */
  function SuitePass(suites: seq<Suite>, tags: seq<Tag>, j: nat, order: seq<string>): seq<Tag>
    requires j < |suites|
  {
    if order == [] then []
    else
      var t := Tag(j, order[|order| - 1]);
      SuitePass(suites, tags, j, order[..|order| - 1]) + if Shows(suites, tags, t) then [] else [t]
  }

  /** The tags say what the controller creates. */
  lemma {:induction false} SuitePassIsMissing(suites: seq<Suite>, tags: seq<Tag>, j: nat, order: seq<string>)
    requires j < |suites| && forall i :: 0 <= i < |tags| ==> tags[i].suite < |suites|
    ensures forall i :: 0 <= i < |SuitePass(suites, tags, j, order)| ==> SuitePass(suites, tags, j, order)[i].suite == j
    ensures Listing(suites, SuitePass(suites, tags, j, order)) == Missing(suites[j], Listing(suites, tags), order)
  {
    if order == [] {
    } else {
      SuitePassIsMissing(suites, tags, j, order[..|order| - 1]);
      ShowsMeansFound(suites, tags, Tag(j, order[|order| - 1]));
    }
  }

  ghost predicate AreOrders(suites: seq<Suite>, orders: seq<seq<string>>) {
    |orders| == |suites| && forall j :: 0 <= j < |suites| ==> IsOrder(orders[j], Runners(suites[j].tests))
  }

  function Joined(parts: seq<seq<Tag>>): seq<Tag> {
    if parts == [] then [] else Joined(parts[..|parts| - 1]) + parts[|parts| - 1]
  }

  function Parts(suites: seq<Suite>, tags: seq<Tag>, orders: seq<seq<string>>): seq<seq<Tag>>
    requires |suites| == |orders|
  {
    seq(|suites|, j requires 0 <= j < |suites| => SuitePass(suites, tags, j, orders[j]))
  }

  /** What a pass creates, suite by suite; the listing is taken once, at its start. */
  function Pass(suites: seq<Suite>, tags: seq<Tag>, orders: seq<seq<string>>): seq<Tag>
    requires |suites| == |orders|
  {
    Joined(Parts(suites, tags, orders))
  }

  predicate InPart(parts: seq<seq<Tag>>, j: nat, t: Tag) { j < |parts| && t in parts[j] }

  lemma {:induction false} JoinedMembers(parts: seq<seq<Tag>>)
    ensures forall t :: t in Joined(parts) <==> exists j: nat :: InPart(parts, j, t)
  {
    if parts == [] {
    } else {
      var init := parts[..|parts| - 1];
      JoinedMembers(init);
      forall t ensures t in Joined(parts) <==> exists j: nat :: InPart(parts, j, t) {
        if j: nat :| InPart(init, j, t) { assert InPart(parts, j, t); }
        if j: nat :| InPart(parts, j, t) { assert j < |init| ==> InPart(init, j, t); }
        if t in parts[|parts| - 1] { assert InPart(parts, |parts| - 1, t); }
      }
    }
  }

  lemma {:induction false} JoinedGrows(parts: seq<seq<Tag>>, n: nat)
    requires n <= |parts|
    ensures Joined(parts[..n]) <= Joined(parts)
  {
    if n == |parts| {
      assert parts[..n] == parts;
    } else {
      JoinedGrows(parts[..|parts| - 1], n);
      assert parts[..|parts| - 1][..n] == parts[..n];
    }
  }

  /** A pass that stops after `creations` creations, or at its end. */
  datatype Attempt = Attempt(orders: seq<seq<string>>, creations: nat)

  ghost function After(suites: seq<Suite>, attempts: seq<Attempt>): seq<Tag>
    requires forall i :: 0 <= i < |attempts| ==> AreOrders(suites, attempts[i].orders)
  {
    if attempts == [] then []
    else
      var before := After(suites, attempts[..|attempts| - 1]);
      var last := attempts[|attempts| - 1];
      assert AreOrders(suites, last.orders);
      before + FirstOf(Pass(suites, before, last.orders), last.creations)
  }

  /** Exactly one request per suite and distinct runner. */
  ghost predicate Complete(suites: seq<Suite>, tags: seq<Tag>) {
    NoDuplicates(tags) && forall t :: t in tags <==> Valid(suites, t)
  }

  // ---------------------------------------------------------------- the condition

  /** No request of an earlier suite passes for one of a later suite with the same runner. */
  ghost predicate NoShadow(suites: seq<Suite>) {
    forall i, j, r :: 0 <= i < j < |suites| && r in Runners(suites[i].tests) && r in Runners(suites[j].tests) ==>
      !(suites[j].name <= RequestName(suites[i], r))
  }

  /** Requests exist without repetition, and those of a suite only after all of the suites before. */
  ghost predicate InOrder(suites: seq<Suite>, tags: seq<Tag>) {
    && NoDuplicates(tags)
    && (forall t :: t in tags ==> Valid(suites, t))
    && (forall t, u :: t in tags && Valid(suites, u) && u.suite < t.suite ==> u in tags)
  }

  /** In an orderly listing exactly the existing requests are found. */
  lemma {:induction false} ShowsExactly(suites: seq<Suite>, tags: seq<Tag>, t: Tag)
    requires NoShadow(suites) && InOrder(suites, tags) && Valid(suites, t)
    ensures Shows(suites, tags, t) <==> t in tags
  {
    if i :| 0 <= i < |tags| && StandsFor(suites, tags[i], t) {
      assert tags[i] in tags;
      if tags[i].suite == t.suite { assert tags[i] == t; }
    }
    if t in tags { OwnNameShows(suites, tags, t); }
  }

  lemma {:induction false} OwnNameShows(suites: seq<Suite>, tags: seq<Tag>, t: Tag)
    requires t in tags && t.suite < |suites|
    ensures Shows(suites, tags, t)
  {
    var i :| 0 <= i < |tags| && tags[i] == t;
    assert StandsFor(suites, tags[i], t);
  }

  /** Without repetition, and nothing that is there already. */
  ghost predicate News(tags: seq<Tag>, added: seq<Tag>) {
    NoDuplicates(added) && forall t :: t in added ==> t !in tags
  }

  lemma {:induction false} SuitePassCreates(suites: seq<Suite>, tags: seq<Tag>, j: nat, order: seq<string>)
    requires NoShadow(suites) && InOrder(suites, tags) && j < |suites|
    requires NoDuplicates(order) && forall r :: r in order ==> r in Runners(suites[j].tests)
    ensures var added := SuitePass(suites, tags, j, order);
            && News(tags, added)
            && forall t :: t in added <==> t.suite == j && t.runner in order && t !in tags
  {
    if order == [] {
    } else {
      var init, last := order[..|order| - 1], order[|order| - 1];
      assert order == init + [last];
      SuitePassCreates(suites, tags, j, init);
      ShowsExactly(suites, tags, Tag(j, last));
    }
  }

  ghost predicate BySuite(tags: seq<Tag>) {
    forall i, k :: 0 <= i < k < |tags| ==> tags[i].suite <= tags[k].suite
  }

  /** `added` are exactly the missing requests of the first suites, suite by suite. */
  ghost predicate Creates(suites: seq<Suite>, tags: seq<Tag>, added: seq<Tag>, upTo: nat) {
    && News(tags, added) && BySuite(added)
    && forall t :: t in added <==> Valid(suites, t) && t.suite < upTo && t !in tags
  }

  ghost predicate CreatesFor(suites: seq<Suite>, tags: seq<Tag>, added: seq<Tag>, j: nat) {
    News(tags, added) && forall t :: t in added <==> Valid(suites, t) && t.suite == j && t !in tags
  }

  lemma {:induction false} CreatesMore(suites: seq<Suite>, tags: seq<Tag>, a: seq<Tag>, b: seq<Tag>, j: nat)
    requires Creates(suites, tags, a, j) && CreatesFor(suites, tags, b, j)
    ensures Creates(suites, tags, a + b, j + 1)
  {
    assert forall i :: 0 <= i < |a| ==> a[i] in a;
    assert forall i :: 0 <= i < |b| ==> b[i] in b;
  }

  lemma {:induction false} OneSuiteCreates(suites: seq<Suite>, tags: seq<Tag>, orders: seq<seq<string>>, j: nat)
    requires NoShadow(suites) && InOrder(suites, tags) && AreOrders(suites, orders) && j < |suites|
    ensures CreatesFor(suites, tags, SuitePass(suites, tags, j, orders[j]), j)
  {
    assert IsOrder(orders[j], Runners(suites[j].tests));
    SuitePassCreates(suites, tags, j, orders[j]);
  }

  lemma {:induction false} JoinedCreates(suites: seq<Suite>, tags: seq<Tag>, parts: seq<seq<Tag>>)
    requires forall j :: 0 <= j < |parts| ==> CreatesFor(suites, tags, parts[j], j)
    ensures Creates(suites, tags, Joined(parts), |parts|)
  {
    if parts == [] {
    } else {
      var init := parts[..|parts| - 1];
      JoinedCreates(suites, tags, init);
      CreatesMore(suites, tags, Joined(init), parts[|init|], |init|);
    }
  }

  lemma {:induction false} PassCreates(suites: seq<Suite>, tags: seq<Tag>, orders: seq<seq<string>>)
    requires NoShadow(suites) && InOrder(suites, tags) && AreOrders(suites, orders)
    ensures Creates(suites, tags, Pass(suites, tags, orders), |suites|)
  {
    var parts := Parts(suites, tags, orders);
    forall j | 0 <= j < |parts| ensures CreatesFor(suites, tags, parts[j], j) {
      OneSuiteCreates(suites, tags, orders, j);
    }
    JoinedCreates(suites, tags, parts);
  }

  lemma {:induction false} EarlierIncluded(all: seq<Tag>, n: nat, t: Tag, u: Tag)
    requires BySuite(all) && t in FirstOf(all, n) && u in all && u.suite < t.suite
    ensures u in FirstOf(all, n)
  {
    var some := FirstOf(all, n);
    var k :| 0 <= k < |some| && some[k] == t;
    var i :| 0 <= i < |all| && all[i] == u;
    assert i < k && some[i] == u;
  }

  lemma {:induction false} PartIsNews(tags: seq<Tag>, all: seq<Tag>, n: nat)
    requires NoDuplicates(tags) && News(tags, all)
    ensures NoDuplicates(tags + FirstOf(all, n)) && forall t :: t in FirstOf(all, n) ==> t in all
  {
    var some := FirstOf(all, n);
    assert forall i :: 0 <= i < |some| ==> some[i] == all[i] && all[i] in all;
    assert forall i :: 0 <= i < |tags| ==> tags[i] in tags;
  }

  /** Any first part of the missing requests, taken suite by suite, keeps the order. */
  lemma {:induction false} PartInOrder(suites: seq<Suite>, tags: seq<Tag>, all: seq<Tag>, n: nat)
    requires InOrder(suites, tags) && Creates(suites, tags, all, |suites|)
    ensures InOrder(suites, tags + FirstOf(all, n))
  {
    var some := FirstOf(all, n);
    PartIsNews(tags, all, n);
    forall t, u | t in tags + some && Valid(suites, u) && u.suite < t.suite ensures u in tags + some {
      if t !in tags && u !in tags { EarlierIncluded(all, n, t, u); }
    }
  }

  lemma {:induction false} InterruptedKeeps(suites: seq<Suite>, tags: seq<Tag>, orders: seq<seq<string>>, n: nat)
    requires NoShadow(suites) && InOrder(suites, tags) && AreOrders(suites, orders)
    ensures InOrder(suites, tags + FirstOf(Pass(suites, tags, orders), n))
  {
    PassCreates(suites, tags, orders);
    PartInOrder(suites, tags, Pass(suites, tags, orders), n);
  }

  lemma {:induction false} AfterInOrder(suites: seq<Suite>, attempts: seq<Attempt>)
    requires NoShadow(suites) && forall i :: 0 <= i < |attempts| ==> AreOrders(suites, attempts[i].orders)
    ensures InOrder(suites, After(suites, attempts))
  {
    if attempts == [] {
    } else {
      var init, last := attempts[..|attempts| - 1], attempts[|attempts| - 1];
      AfterInOrder(suites, init);
      InterruptedKeeps(suites, After(suites, init), last.orders, last.creations);
    }
  }

  lemma {:induction false} FullPassCompletes(suites: seq<Suite>, tags: seq<Tag>, orders: seq<seq<string>>)
    requires NoShadow(suites) && InOrder(suites, tags) && AreOrders(suites, orders)
    ensures Complete(suites, tags + Pass(suites, tags, orders))
  {
    PassCreates(suites, tags, orders);
  }

  /** After any number of interrupted passes, in any map order, a full pass on a fresh listing
      leaves exactly one request per suite and distinct runner. */
  lemma {:induction false} RestartCompletes(suites: seq<Suite>, attempts: seq<Attempt>, orders: seq<seq<string>>)
    requires NoShadow(suites) && AreOrders(suites, orders)
    requires forall i :: 0 <= i < |attempts| ==> AreOrders(suites, attempts[i].orders)
    ensures var tags := After(suites, attempts);
            Complete(suites, tags + Pass(suites, tags, orders))
  {
    AfterInOrder(suites, attempts);
    FullPassCompletes(suites, After(suites, attempts), orders);
  }

  ghost predicate AllThere(suites: seq<Suite>, tags: seq<Tag>) {
    forall t :: Valid(suites, t) ==> t in tags
  }

  /** A pass over a complete listing creates nothing, whatever the names. */
  lemma {:induction false} CompleteIsStable(suites: seq<Suite>, tags: seq<Tag>, orders: seq<seq<string>>)
    requires AllThere(suites, tags) && AreOrders(suites, orders)
    ensures Pass(suites, tags, orders) == []
  {
    var parts := Parts(suites, tags, orders);
    forall j | 0 <= j < |parts| ensures parts[j] == [] {
      assert IsOrder(orders[j], Runners(suites[j].tests));
      NothingMissing(suites, tags, j, orders[j]);
    }
    JoinedEmpty(parts);
  }

  lemma {:induction false} JoinedEmpty(parts: seq<seq<Tag>>)
    requires forall j :: 0 <= j < |parts| ==> parts[j] == []
    ensures Joined(parts) == []
  {
    if parts == [] {
    } else {
      JoinedEmpty(parts[..|parts| - 1]);
    }
  }

  lemma {:induction false} NothingMissing(suites: seq<Suite>, tags: seq<Tag>, j: nat, order: seq<string>)
    requires AllThere(suites, tags) && j < |suites| && forall r :: r in order ==> r in Runners(suites[j].tests)
    ensures SuitePass(suites, tags, j, order) == []
  {
    if order == [] {
    } else {
      NothingMissing(suites, tags, j, order[..|order| - 1]);
      assert Valid(suites, Tag(j, order[|order| - 1]));
      OwnNameShows(suites, tags, Tag(j, order[|order| - 1]));
    }
  }

  // ---------------------------------------------------------------- and only then

  function InAppearance(suites: seq<Suite>): seq<seq<string>> {
    seq(|suites|, j requires 0 <= j < |suites| => Runners(suites[j].tests))
  }

  lemma {:induction false} InAppearanceAreOrders(suites: seq<Suite>)
    ensures AreOrders(suites, InAppearance(suites))
  {
    forall j | 0 <= j < |suites| ensures IsOrder(InAppearance(suites)[j], Runners(suites[j].tests)) {
      RunnersDistinct(suites[j].tests);
    }
  }

  /** Nothing exists yet: a pass over the first `n` suites creates all of theirs and no more. */
  lemma {:induction false} FirstPass(suites: seq<Suite>, orders: seq<seq<string>>, n: nat)
    requires AreOrders(suites, orders) && n <= |suites|
    ensures forall t :: t in Joined(Parts(suites, [], orders)[..n]) <==> Valid(suites, t) && t.suite < n
    ensures Joined(Parts(suites, [], orders)[..n]) <= Pass(suites, [], orders)
  {
    var parts := Parts(suites, [], orders);
    JoinedGrows(parts, n);
    JoinedMembers(parts[..n]);
    forall t, j: nat | j < n ensures InPart(parts[..n], j, t) <==> Valid(suites, t) && t.suite == j {
      assert IsOrder(orders[j], Runners(suites[j].tests));
      FirstSuitePass(suites, j, orders[j]);
      assert parts[..n][j] == SuitePass(suites, [], j, orders[j]);
    }
    forall t: Tag | Valid(suites, t) && t.suite < n ensures exists j: nat :: InPart(parts[..n], j, t) {
      assert InPart(parts[..n], t.suite, t);
    }
  }

  lemma {:induction false} FirstSuitePass(suites: seq<Suite>, j: nat, order: seq<string>)
    requires j < |suites|
    ensures forall t :: t in SuitePass(suites, [], j, order) <==> t.suite == j && t.runner in order
  {
    if order == [] {
    } else {
      FirstSuitePass(suites, j, order[..|order| - 1]);
      assert order == order[..|order| - 1] + [order[|order| - 1]];
    }
  }

  lemma {:induction false} HiddenIsNotCreated(suites: seq<Suite>, tags: seq<Tag>, orders: seq<seq<string>>, t: Tag)
    requires |orders| == |suites| && t.suite < |suites| && Shows(suites, tags, t)
    ensures t !in Pass(suites, tags, orders)
  {
    var parts := Parts(suites, tags, orders);
    JoinedMembers(parts);
    forall j: nat ensures !InPart(parts, j, t) {
      if j < |suites| { HiddenInSuite(suites, tags, j, orders[j], t); }
    }
  }

  lemma {:induction false} HiddenInSuite(suites: seq<Suite>, tags: seq<Tag>, j: nat, order: seq<string>, t: Tag)
    requires j < |suites| && t.suite < |suites| && Shows(suites, tags, t)
    ensures t !in SuitePass(suites, tags, j, order)
  {
    if order == [] {
    } else {
      HiddenInSuite(suites, tags, j, order[..|order| - 1], t);
    }
  }

  ghost predicate AlwaysCompletes(suites: seq<Suite>) {
    forall creations: nat, orders :: AreOrders(suites, orders) ==> CompletesFrom(suites, creations, orders)
  }

  /** One interrupted pass, then a full one. */
  ghost predicate CompletesFrom(suites: seq<Suite>, creations: nat, orders: seq<seq<string>>)
    requires AreOrders(suites, orders)
  {
    var tags := FirstOf(Pass(suites, [], orders), creations);
    Complete(suites, tags + Pass(suites, tags, orders))
  }

  lemma {:induction false} ShadowBreaks(suites: seq<Suite>, i: nat, j: nat, r: string)
    requires i < j < |suites| && r in Runners(suites[i].tests) && r in Runners(suites[j].tests)
    requires suites[j].name <= RequestName(suites[i], r)
    ensures !AlwaysCompletes(suites)
  {
    InAppearanceAreOrders(suites);
    var orders := InAppearance(suites);
    FirstPass(suites, orders, j);
    var tags := Joined(Parts(suites, [], orders)[..j]);
    assert tags == FirstOf(Pass(suites, [], orders), |tags|);
    var lost := Tag(j, r);
    assert Tag(i, r) in tags;
    var k :| 0 <= k < |tags| && tags[k] == Tag(i, r);
    assert StandsFor(suites, tags[k], lost);
    HiddenIsNotCreated(suites, tags, orders, lost);
    assert lost !in tags + Pass(suites, tags, orders) && Valid(suites, lost);
    assert !CompletesFrom(suites, |tags|, orders);
  }

  const TWO_SUITES := [Suite("nightly", [Test("1", "python")]), Suite("night", [Test("2", "python")])]

  /** Two suites with one runner, the second name a prefix of the first. */
  lemma {:induction false} PrefixedSuitesBreak()
    ensures !AlwaysCompletes(TWO_SUITES)
  {
    var first, second := [Test("1", "python")], [Test("2", "python")];
    assert first[..0] == [] && second[..0] == [];
    assert Runners(first) == ["python"] && Runners(second) == ["python"];
    assert RequestName(TWO_SUITES[0], "python") == "nightly";
    ShadowBreaks(TWO_SUITES, 0, 1, "python");
  }

  lemma {:induction false} NoShadowCompletes(suites: seq<Suite>, creations: nat, orders: seq<seq<string>>)
    requires NoShadow(suites) && AreOrders(suites, orders)
    ensures CompletesFrom(suites, creations, orders)
  {
    InterruptedKeeps(suites, [], orders, creations);
    var tags := FirstOf(Pass(suites, [], orders), creations);
    assert [] + tags == tags;
    FullPassCompletes(suites, tags, orders);
  }

  /** Exactly when request creation is restartable: no request of an earlier suite begins with
      the name of a later suite that uses the same runner. */
  lemma {:induction false} RestartableExactly(suites: seq<Suite>)
    ensures AlwaysCompletes(suites) <==> NoShadow(suites)
  {
    if !NoShadow(suites) {
      var i, j, r :| 0 <= i < j < |suites| && r in Runners(suites[i].tests) && r in Runners(suites[j].tests)
                  && suites[j].name <= RequestName(suites[i], r);
      ShadowBreaks(suites, i, j, r);
    } else {
      forall creations: nat, orders | AreOrders(suites, orders) ensures CompletesFrom(suites, creations, orders) {
        NoShadowCompletes(suites, creations, orders);
      }
    }
  }

  /** Suite names of which none is a prefix of another satisfy the condition. */
  lemma {:induction false} PrefixFreeIsEnough(suites: seq<Suite>)
    requires forall i, j :: 0 <= i < j < |suites| ==> !(suites[j].name <= suites[i].name) && !(suites[i].name <= suites[j].name)
    ensures NoShadow(suites)
  {
    forall i, j, r | 0 <= i < j < |suites| && r in Runners(suites[i].tests) && r in Runners(suites[j].tests)
      ensures !(suites[j].name <= RequestName(suites[i], r))
    {
      if suites[j].name <= RequestName(suites[i], r) {
        PrefixesCompare(suites[i].name, suites[j].name, RequestName(suites[i], r));
      }
    }
  }

  lemma {:induction false} PrefixesCompare(a: string, b: string, whole: string)
    requires a <= whole && b <= whole
    ensures a <= b || b <= a
  {
    if |a| <= |b| { assert a == whole[..|a|] == b[..|a|]; } else { assert b == whole[..|b|] == a[..|b|]; }
  }

  // ---------------------------------------------------------------- generated names

  function Value(s: string): nat {
    if s == [] then 0 else Value(s[..|s| - 1]) * 10 + DigitValue(s[|s| - 1])
  }

  function DigitValue(c: char): nat {
    if '0' <= c <= '9' then c as nat - '0' as nat else 0
  }

  lemma {:induction false} NoHyphen(n: nat)
    ensures '-' !in Decimal(n)
  {
    if n < 10 {
    } else {
      NoHyphen(n / 10);
    }
  }

  lemma {:induction false} ValueSnoc(s: string, d: nat)
    requires d < 10
    ensures Value(s + [Digit(d)]) == 10 * Value(s) + d
  {
    assert (s + [Digit(d)])[..|s|] == s;
  }

  lemma {:induction false} DecimalValue(n: nat)
    ensures Value(Decimal(n)) == n
  {
    if n < 10 {
      ValueSnoc([], n);
      assert [] + [Digit(n)] == [Digit(n)];
    } else {
      DecimalValue(n / 10);
      ValueSnoc(Decimal(n / 10), n % 10);
    }
  }

  lemma {:induction false} PrefixIsSmaller(a: string, b: string)
    requires a <= b
    ensures Value(a) <= Value(b)
  {
    if a != b {
      assert a == b[..|b| - 1][..|a|];
      PrefixIsSmaller(a, b[..|b| - 1]);
    } else {
      assert a == b;
    }
  }

  /** The name the conversion from the newer API version generates for suite number `i`. */
  function GeneratedName(base: string, i: nat): string { base + "-suite-" + Decimal(i) }

  lemma {:induction false} CommonStem(stem: string, a: string, b: string)
    requires stem + a <= stem + b
    ensures a <= b
  {
    assert forall k :: 0 <= k < |a| ==> a[k] == (stem + a)[|stem| + k] == (stem + b)[|stem| + k] == b[k];
  }

  lemma {:induction false} ReachesHyphen(a: string, b: string, rest: string)
    requires a <= b + rest && |a| > |b| && (rest == [] || rest[0] == '-')
    ensures '-' in a
  {
    assert a[|b|] == (b + rest)[|b|] == rest[0];
  }

  lemma {:induction false} StopsAtHyphen(a: string, b: string, rest: string)
    requires a <= b + rest && '-' !in a && (rest == [] || rest[0] == '-')
    ensures a <= b
  {
    if |a| > |b| { ReachesHyphen(a, b, rest); }
    else { assert forall k :: 0 <= k < |a| ==> a[k] == (b + rest)[k] == b[k]; }
  }

  lemma {:induction false} GeneratedNotPrefix(base: string, i: nat, j: nat, rest: string)
    requires i < j && (rest == [] || rest[0] == '-')
    ensures !(GeneratedName(base, j) <= GeneratedName(base, i) + rest)
  {
    DecimalValue(i);
    DecimalValue(j);
    NoHyphen(j);
    var stem := base + "-suite-";
    assert GeneratedName(base, i) + rest == stem + (Decimal(i) + rest);
    if GeneratedName(base, j) <= GeneratedName(base, i) + rest {
      CommonStem(stem, Decimal(j), Decimal(i) + rest);
      StopsAtHyphen(Decimal(j), Decimal(i), rest);
      PrefixIsSmaller(Decimal(j), Decimal(i));
    }
  }

  /** Generated names satisfy the condition for any number of suites, although "suite-1" is a
      prefix of "suite-10". */
  lemma {:induction false} GeneratedNamesAreSafe(suites: seq<Suite>, base: string)
    requires forall i :: 0 <= i < |suites| ==> suites[i].name == GeneratedName(base, i)
    ensures NoShadow(suites)
  {
    forall i, j, r | 0 <= i < j < |suites| && r in Runners(suites[i].tests) && r in Runners(suites[j].tests)
      ensures !(suites[j].name <= RequestName(suites[i], r))
    {
      var runners := Runners(suites[i].tests);
      if |runners| > 1 {
        var rest := "-" + Decimal(Position(runners, r));
        GeneratedNotPrefix(base, i, j, rest);
        assert suites[i].name + "-" + Decimal(Position(runners, r)) == suites[i].name + rest;
      } else {
        GeneratedNotPrefix(base, i, j, []);
        assert suites[i].name + [] == suites[i].name;
      }
    }
  }
}
