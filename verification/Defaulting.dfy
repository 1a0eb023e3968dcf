/**
 Defaulting and validation of test runs on admission.

 What the webhook reads from outside is a parameter: a new UUID, the clock, and the answers of
 the API server, each of which may be an error. A cluster that cannot be fetched is used as if
 it were there with an empty specification.
 */
module Defaulting {
  import opened Conditions
  import opened Totals
  import opened ProviderAdmission
  import Conversion

  const ID_LABEL := "etos.eiffel-community.github.io/id"

  type Image = Conversion.Image

  datatype Service = Service(image: string, version: string)
  datatype Config = Config(suiteRunner: Service, logListener: Service, environmentProvider: Service, testRunner: Service)
  datatype ClusterSpec = ClusterSpec(suiteRunner: Image, logListener: Image, environmentProvider: Image, testRunner: string)
  datatype Cluster = Cluster(name: string, spec: ClusterSpec)

  datatype Spec = Spec(
    id: string, cluster: string, timeout: int, deadline: int,
    suiteRunner: Option<Option<Image>>, logListener: Option<Option<Image>>,
    environmentProvider: Option<Option<Image>>, testRunner: Option<string>,
    iut: string, executionSpace: string, logArea: string, labels: Option<map<string, string>>)

  /** What the webhook is told in one call. `fetched` is the answer for the cluster named in the
      specification, the other answers are listings. */
  datatype Answers = Answers(
    uuid: string, now: int, clusters: Option<seq<Cluster>>, fetched: Option<ClusterSpec>,
    iuts: Option<seq<Provider>>, executionSpaces: Option<seq<Provider>>, logAreas: Option<seq<Provider>>)

  const TWO_63 := 0x8000_0000_0000_0000
  const TWO_64 := 0x1_0000_0000_0000_0000

  /** Addition of 64-bit signed integers. */
  function Sum64(a: int, b: int): int { (a + b + TWO_63) % TWO_64 - TWO_63 }

  function ImageOrDefault(service: Service, image: Image): string {
    if image.image != "" then image.image else service.image + ":" + service.version
  }

  function PullPolicyOrDefault(image: Image): string {
    if image.pullPolicy != "" then image.pullPolicy else "IfNotPresent"
  }

  function VersionOrDefault(service: Service, version: string): string {
    if version != "" then version else service.version
  }

  function DefaultImage(service: Service, image: Image): Image {
    Conversion.Image(ImageOrDefault(service, image), PullPolicyOrDefault(image))
  }

  const EMPTY_CLUSTER := ClusterSpec(Conversion.Image("", ""), Conversion.Image("", ""), Conversion.Image("", ""), "")

  // ---------------------------------------------------------------- what defaulting amounts to

  function OnlyCluster(clusters: Option<seq<Cluster>>): Option<Cluster> {
    if clusters.Some? && |clusters.value| == 1 then Some(clusters.value[0]) else None
  }

  /** The cluster whose settings are used, and the name that ends up in the specification. */
  function ClusterUsed(s: Spec, a: Answers): Option<Cluster> {
    if s.cluster == "" then OnlyCluster(a.clusters)
    else Some(Cluster(s.cluster, if a.fetched.Some? then a.fetched.value else EMPTY_CLUSTER))
  }

  function ProviderUsed(given: string, listing: Option<seq<Provider>>): string {
    if given != "" then given
    else if listing.Some? && FirstName(listing.value).Some? then FirstName(listing.value).value
    else ""
  }

  function Labelled(labels: Option<map<string, string>>, id: string): map<string, string> {
    var m := if labels.Some? then labels.value else map[];
    if ID_LABEL in m then m else m[ID_LABEL := id]
  }

  function WithCluster(s: Spec, c: Option<Cluster>, cfg: Config): Spec {
    if c.None? then s
    else s.(
      cluster := c.value.name,
      suiteRunner := if s.suiteRunner.Some? then s.suiteRunner
                     else Some(Some(DefaultImage(cfg.suiteRunner, c.value.spec.suiteRunner))),
      logListener := if s.logListener.Some? then s.logListener
                     else Some(Some(DefaultImage(cfg.logListener, c.value.spec.logListener))),
      environmentProvider := if s.environmentProvider.Some? then s.environmentProvider
                             else Some(Some(DefaultImage(cfg.environmentProvider, c.value.spec.environmentProvider))),
      testRunner := if s.testRunner.Some? then s.testRunner
                    else Some(VersionOrDefault(cfg.testRunner, c.value.spec.testRunner)))
  }

  function Defaulted(s: Spec, a: Answers, cfg: Config): Spec {
    var id := if s.id == "" then a.uuid else s.id;
    WithCluster(s, ClusterUsed(s, a), cfg).(
    id := id,
    labels := Some(Labelled(s.labels, id)),
    iut := ProviderUsed(s.iut, a.iuts),
    executionSpace := ProviderUsed(s.executionSpace, a.executionSpaces),
    logArea := ProviderUsed(s.logArea, a.logAreas),
    deadline := if s.deadline == 0 then Sum64(a.now, s.timeout) else s.deadline)
  }

  // ---------------------------------------------------------------- the webhook

  class TestRun {
    var spec: Spec

    method FillFromCluster(cluster: Option<Cluster>, cfg: Config)
      requires cluster.Some? ==> spec.cluster == cluster.value.name
      modifies this
      ensures spec == WithCluster(old(spec), cluster, cfg)
    {
      if spec.suiteRunner.None? && cluster.Some? {
        var image := DefaultImage(cfg.suiteRunner, cluster.value.spec.suiteRunner);
        spec := spec.(suiteRunner := Some(Some(image)));
      }
      if spec.logListener.None? && cluster.Some? {
        var image := DefaultImage(cfg.logListener, cluster.value.spec.logListener);
        spec := spec.(logListener := Some(Some(image)));
      }
      if spec.environmentProvider.None? && cluster.Some? {
        var image := DefaultImage(cfg.environmentProvider, cluster.value.spec.environmentProvider);
        spec := spec.(environmentProvider := Some(Some(image)));
      }
      if spec.testRunner.None? && cluster.Some? {
        spec := spec.(testRunner := Some(VersionOrDefault(cfg.testRunner, cluster.value.spec.testRunner)));
      }
    }

    method ResolveCluster(a: Answers, cfg: Config)
      modifies this
      ensures spec == WithCluster(old(spec), ClusterUsed(old(spec), a), cfg)
    {
      var cluster: Option<Cluster> := None;
      if spec.cluster == "" {
        var items := if a.clusters.Some? then a.clusters.value else [];
        if |items| == 1 {
          cluster := Some(items[0]);
          spec := spec.(cluster := items[0].name);
        }
      } else {
        var fetched := EMPTY_CLUSTER;
        if a.fetched.Some? { fetched := a.fetched.value; }
        cluster := Some(Cluster(spec.cluster, fetched));
      }
      FillFromCluster(cluster, cfg);
    }

    /** Looks for the label by going through the keys in the order the map yields them. */
    method AddLabel()
      modifies this
      ensures spec == old(spec).(labels := Some(Labelled(old(spec).labels, old(spec).id)))
    {
      var addLabel := true;
      if spec.labels.Some? {
        var rest := spec.labels.value.Keys;
        while rest != {}
          invariant rest <= spec.labels.value.Keys && spec == old(spec)
          invariant addLabel <==> ID_LABEL !in spec.labels.value.Keys - rest
          decreases |rest|
        {
          var key :| key in rest;
          if key == ID_LABEL { addLabel := false; }
          rest := rest - {key};
        }
      } else {
        spec := spec.(labels := Some(map[]));
      }
      if addLabel { spec := spec.(labels := Some(spec.labels.value[ID_LABEL := spec.id])); }
    }

    method ChooseProviders(a: Answers)
      modifies this
      ensures spec == old(spec).(
                iut := ProviderUsed(old(spec).iut, a.iuts),
                executionSpace := ProviderUsed(old(spec).executionSpace, a.executionSpaces),
                logArea := ProviderUsed(old(spec).logArea, a.logAreas))
    {
      if spec.iut == "" {
        var name := FindDefaultProvider(a.iuts);
        if name.Some? { spec := spec.(iut := name.value); }
      }
      if spec.executionSpace == "" {
        var name := FindDefaultProvider(a.executionSpaces);
        if name.Some? { spec := spec.(executionSpace := name.value); }
      }
      if spec.logArea == "" {
        var name := FindDefaultProvider(a.logAreas);
        if name.Some? { spec := spec.(logArea := name.value); }
      }
    }

    method Default(a: Answers, cfg: Config)
      modifies this
      ensures spec == Defaulted(old(spec), a, cfg)
    {
      if spec.id == "" { spec := spec.(id := a.uuid); }
      ResolveCluster(a, cfg);
      AddLabel();
      ChooseProviders(a);
      if spec.deadline == 0 { spec := spec.(deadline := Sum64(a.now, spec.timeout)); }
    }
  }

  datatype Field = ClusterField | SuiteRunner | EnvironmentProvider | TestRunnerField | Iut | ExecutionSpace | LogArea

  predicate Lacks(s: Spec, f: Field) {
    match f
    case ClusterField => s.cluster == ""
    case SuiteRunner => s.suiteRunner.None?
    case EnvironmentProvider => s.environmentProvider.None?
    case TestRunnerField => s.testRunner.None?
    case Iut => s.iut == ""
    case ExecutionSpace => s.executionSpace == ""
    case LogArea => s.logArea == ""
  }

  /** The order in which the fields are looked at. */
  function Rank(f: Field): (n: nat)
    ensures n < 7
  {
    match f
    case ClusterField => 0
    case SuiteRunner => 1
    case EnvironmentProvider => 2
    case TestRunnerField => 3
    case Iut => 4
    case ExecutionSpace => 5
    case LogArea => 6
  }

  ghost predicate Reports(errors: seq<Field>, s: Spec, checked: nat) {
    NoDuplicates(errors) && forall f :: f in errors <==> Rank(f) < checked && Lacks(s, f)
  }

  method Require(s: Spec, missing: bool, f: Field, errors: seq<Field>) returns (more: seq<Field>)
    requires missing == Lacks(s, f) && Reports(errors, s, Rank(f))
    ensures Reports(more, s, Rank(f) + 1)
  {
    more := errors;
    if missing { more := more + [f]; }
    assert forall g :: Rank(g) < Rank(f) + 1 <==> Rank(g) < Rank(f) || g == f;
  }

  /** Reports every missing field once. */
  method Validate(s: Spec) returns (errors: seq<Field>)
    ensures NoDuplicates(errors) && forall f :: f in errors <==> Lacks(s, f)
  {
    errors := [];
    errors := Require(s, s.cluster == "", ClusterField, errors);
    errors := Require(s, s.suiteRunner.None?, SuiteRunner, errors);
    errors := Require(s, s.environmentProvider.None?, EnvironmentProvider, errors);
    errors := Require(s, s.testRunner.None?, TestRunnerField, errors);
    errors := Require(s, s.iut == "", Iut, errors);
    errors := Require(s, s.executionSpace == "", ExecutionSpace, errors);
    errors := Require(s, s.logArea == "", LogArea, errors);
  }

  ghost predicate Valid(s: Spec) { forall f :: !Lacks(s, f) }

  // ---------------------------------------------------------------- defaulting on an unchanged store

  type Clusters = map<Key, ClusterSpec>

  datatype World = World(writes: seq<Write>, clusters: Clusters)

  ghost predicate IsClusterListing(listing: seq<Cluster>, clusters: Clusters, namespace: string) {
    && NoDuplicates(listing)
    && forall c :: c in listing <==> Key(namespace, c.name) in clusters && clusters[Key(namespace, c.name)] == c.spec
  }

  ghost predicate Listed(listing: Option<seq<Provider>>, w: World, namespace: string, kind: string) {
    listing.Some? && IsListing(listing.value, Run(w.writes), namespace, kind)
  }

  function Fetch(w: World, namespace: string, name: string): Option<ClusterSpec> {
    if Key(namespace, name) in w.clusters then Some(w.clusters[Key(namespace, name)]) else None
  }

  /** Every call made for this specification was answered, from this store. */
  ghost predicate Answered(s: Spec, a: Answers, w: World, namespace: string) {
    && a.uuid != ""
    && (s.cluster != "" ==> a.fetched == Fetch(w, namespace, s.cluster))
    && a.clusters.Some? && IsClusterListing(a.clusters.value, w.clusters, namespace)
    && Listed(a.iuts, w, namespace, "iut")
    && Listed(a.executionSpaces, w, namespace, "execution-space")
    && Listed(a.logAreas, w, namespace, "log-area")
  }

  lemma {:induction false} SameMembersSameLength<T(!new)>(a: seq<T>, b: seq<T>)
    requires NoDuplicates(a) && NoDuplicates(b) && forall x :: x in a <==> x in b
    ensures |a| == |b|
  {
    if a == [] {
      if b != [] { HasMember(b); }
    } else {
      var last := a[|a| - 1];
      assert last in b;
      var k :| 0 <= k < |b| && b[k] == last;
      WithoutMembers(a, |a| - 1);
      WithoutMembers(b, k);
      assert Without(a, |a| - 1) == a[..|a| - 1];
      SameMembersSameLength(a[..|a| - 1], Without(b, k));
    }
  }

  lemma {:induction false} OnlyClusterIsOne(w: World, namespace: string, a: Answers, b: Answers)
    requires a.clusters.Some? && IsClusterListing(a.clusters.value, w.clusters, namespace)
    requires b.clusters.Some? && IsClusterListing(b.clusters.value, w.clusters, namespace)
    ensures OnlyCluster(a.clusters) == OnlyCluster(b.clusters)
  {
    SameMembersSameLength(a.clusters.value, b.clusters.value);
    if |a.clusters.value| == 1 { assert a.clusters.value[0] in b.clusters.value; }
  }

  lemma {:induction false} SameProvider(w: World, namespace: string, kind: string, a: Option<seq<Provider>>, b: Option<seq<Provider>>, given: string)
    requires Listed(a, w, namespace, kind) && Listed(b, w, namespace, kind)
    ensures ProviderUsed(given, a) == ProviderUsed(given, b)
  {
    ChoiceIgnoresOrder(w.writes, namespace, kind, a.value, b.value);
  }

  lemma {:induction false} SameProviders(s: Spec, a: Answers, b: Answers, w: World, namespace: string)
    requires Answered(s, a, w, namespace) && Answered(s, b, w, namespace)
    ensures ProviderUsed(s.iut, a.iuts) == ProviderUsed(s.iut, b.iuts)
    ensures ProviderUsed(s.executionSpace, a.executionSpaces) == ProviderUsed(s.executionSpace, b.executionSpaces)
    ensures ProviderUsed(s.logArea, a.logAreas) == ProviderUsed(s.logArea, b.logAreas)
  {
    SameProvider(w, namespace, "iut", a.iuts, b.iuts, s.iut);
    SameProvider(w, namespace, "execution-space", a.executionSpaces, b.executionSpaces, s.executionSpace);
    SameProvider(w, namespace, "log-area", a.logAreas, b.logAreas, s.logArea);
  }

  /** The order of the listings does not matter. */
  lemma {:induction false} DefaultingIgnoresOrder(s: Spec, a: Answers, b: Answers, w: World, namespace: string, cfg: Config)
    requires Answered(s, a, w, namespace) && Answered(s, b, w, namespace)
    requires a.uuid == b.uuid && a.now == b.now
    ensures Defaulted(s, a, cfg) == Defaulted(s, b, cfg)
  {
    OnlyClusterIsOne(w, namespace, a, b);
    SameProviders(s, a, b, w, namespace);
  }

  lemma {:induction false} ProviderSettles(w: World, namespace: string, kind: string, a: Option<seq<Provider>>, b: Option<seq<Provider>>, given: string)
    requires Listed(a, w, namespace, kind) && Listed(b, w, namespace, kind)
    ensures ProviderUsed(ProviderUsed(given, a), b) == ProviderUsed(given, a)
  {
    ChoiceIgnoresOrder(w.writes, namespace, kind, a.value, b.value);
  }

  lemma {:induction false} ClusterSettles(s: Spec, a: Answers, b: Answers, w: World, namespace: string, cfg: Config)
    requires Answered(s, a, w, namespace) && Answered(Defaulted(s, a, cfg), b, w, namespace)
    ensures var t := Defaulted(s, a, cfg);
            WithCluster(t, ClusterUsed(t, b), cfg) == t
  {
    OnlyClusterIsOne(w, namespace, a, b);
  }

  /** Defaulting a second time, with other answers from the same store, another UUID and another
      time, changes nothing - unless the deadline computed the first time was zero. */
  lemma {:induction false} IdempotentExactly(s: Spec, a: Answers, b: Answers, w: World, namespace: string, cfg: Config)
    requires Answered(s, a, w, namespace) && Answered(Defaulted(s, a, cfg), b, w, namespace)
    ensures Defaulted(Defaulted(s, a, cfg), b, cfg) == Defaulted(s, a, cfg)
       <==> s.deadline != 0 || Sum64(a.now, s.timeout) != 0 || Sum64(b.now, s.timeout) == 0
  {
    ClusterSettles(s, a, b, w, namespace, cfg);
    ProviderSettles(w, namespace, "iut", a.iuts, b.iuts, s.iut);
    ProviderSettles(w, namespace, "execution-space", a.executionSpaces, b.executionSpaces, s.executionSpace);
    ProviderSettles(w, namespace, "log-area", a.logAreas, b.logAreas, s.logArea);
  }

  /** What the user gave stays: whatever the answers, only fields left open are filled. */
  lemma {:induction false} GivenStays(s: Spec, a: Answers, cfg: Config)
    ensures var t := Defaulted(s, a, cfg);
            && (s.id != "" ==> t.id == s.id)
            && (s.cluster != "" ==> t.cluster == s.cluster)
            && t.timeout == s.timeout
            && (s.deadline != 0 ==> t.deadline == s.deadline)
            && (s.suiteRunner.Some? ==> t.suiteRunner == s.suiteRunner)
            && (s.logListener.Some? ==> t.logListener == s.logListener)
            && (s.environmentProvider.Some? ==> t.environmentProvider == s.environmentProvider)
            && (s.testRunner.Some? ==> t.testRunner == s.testRunner)
            && (s.iut != "" ==> t.iut == s.iut)
            && (s.executionSpace != "" ==> t.executionSpace == s.executionSpace)
            && (s.logArea != "" ==> t.logArea == s.logArea)
            && (s.labels.Some? ==> t.labels.value - {ID_LABEL} == s.labels.value - {ID_LABEL})
            && (s.labels.Some? && ID_LABEL in s.labels.value ==> t.labels == s.labels)
  {
  }

  /** An open deadline becomes the time of the call plus the timeout, as a 64-bit signed integer. */
  lemma {:induction false} DeadlineMeaning(s: Spec, a: Answers, cfg: Config)
    requires s.deadline == 0
    ensures var deadline := Defaulted(s, a, cfg).deadline;
            && -TWO_63 <= deadline < TWO_63
            && (deadline - (a.now + s.timeout)) % TWO_64 == 0
            && (-TWO_63 <= a.now + s.timeout < TWO_63 ==> deadline == a.now + s.timeout)
  {
    var x := a.now + s.timeout + TWO_63;
    assert x == x / TWO_64 * TWO_64 + x % TWO_64;
  }

  /** The image that fills an open field: that of the cluster, or the configured one if it has none. */
  predicate Fills(given: Option<Option<Image>>, image: Image, service: Service, filled: Option<Option<Image>>) {
    given.None? ==>
      && filled.Some? && filled.value.Some?
      && var used := filled.value.value;
      && (image.image != "" ==> used.image == image.image)
      && (image.image == "" ==> used.image == service.image + ":" + service.version)
      && (image.pullPolicy != "" ==> used.pullPolicy == image.pullPolicy)
      && (image.pullPolicy == "" ==> used.pullPolicy == "IfNotPresent")
  }

  predicate FilledFrom(s: Spec, t: Spec, c: ClusterSpec, cfg: Config) {
    && Fills(s.suiteRunner, c.suiteRunner, cfg.suiteRunner, t.suiteRunner)
    && Fills(s.logListener, c.logListener, cfg.logListener, t.logListener)
    && Fills(s.environmentProvider, c.environmentProvider, cfg.environmentProvider, t.environmentProvider)
    && (s.testRunner.None? && c.testRunner != "" ==> t.testRunner == Some(c.testRunner))
    && (s.testRunner.None? && c.testRunner == "" ==> t.testRunner == Some(cfg.testRunner.version))
  }

  /** What open fields are filled with: the images of the named cluster, or of the only one there is,
      or nothing if there is no single one; a fetch that fails counts as a cluster without images. */
  lemma {:induction false} OpenFilled(s: Spec, a: Answers, cfg: Config)
    ensures var t := Defaulted(s, a, cfg);
            && (s.cluster != "" && a.fetched.Some? ==> FilledFrom(s, t, a.fetched.value, cfg))
            && (s.cluster != "" && a.fetched.None? ==> FilledFrom(s, t, EMPTY_CLUSTER, cfg))
            && (s.cluster == "" && a.clusters.Some? && |a.clusters.value| == 1 ==>
                  t.cluster == a.clusters.value[0].name && FilledFrom(s, t, a.clusters.value[0].spec, cfg))
            && (s.cluster == "" && (a.clusters.None? || |a.clusters.value| != 1) ==>
                  && t.cluster == "" && t.suiteRunner == s.suiteRunner && t.logListener == s.logListener
                  && t.environmentProvider == s.environmentProvider && t.testRunner == s.testRunner)
            && (s.id == "" ==> t.id == a.uuid)
            && (s.labels.None? || ID_LABEL !in s.labels.value ==> ID_LABEL in t.labels.value && t.labels.value[ID_LABEL] == t.id)
  {
  }

  // ---------------------------------------------------------------- which test runs are admitted

  /** Objects in a store have names. */
  ghost predicate Named(w: World) {
    && (forall k :: k in Run(w.writes) ==> k.name != "")
    && (forall k :: k in w.clusters ==> k.name != "")
  }

  ghost predicate OneCluster(w: World, namespace: string) {
    exists k :: IsTheCluster(w, namespace, k)
  }

  ghost predicate IsTheCluster(w: World, namespace: string, k: Key) {
    k in w.clusters && k.namespace == namespace && forall l :: l in w.clusters && l.namespace == namespace ==> l == k
  }

  lemma {:induction false} OnlyClusterExactly(listing: seq<Cluster>, w: World, namespace: string)
    requires IsClusterListing(listing, w.clusters, namespace)
    ensures |listing| == 1 <==> OneCluster(w, namespace)
  {
    if |listing| == 1 {
      var k := Key(namespace, listing[0].name);
      assert listing[0] in listing;
      forall l | l in w.clusters && l.namespace == namespace ensures l == k {
        assert Cluster(l.name, w.clusters[l]) in listing;
      }
      assert IsTheCluster(w, namespace, k);
    }
    if OneCluster(w, namespace) {
      var k :| IsTheCluster(w, namespace, k);
      var c := Cluster(k.name, w.clusters[k]);
      assert c in listing && c in [c];
      forall d | d in listing ensures d == c { assert Key(namespace, d.name) in w.clusters; }
      SameMembersSameLength(listing, [c]);
    }
  }

  lemma {:induction false} ClusterFilledExactly(s: Spec, a: Answers, w: World, namespace: string, cfg: Config)
    requires Answered(s, a, w, namespace) && Named(w)
    ensures ClusterUsed(s, a).Some? <==> s.cluster != "" || OneCluster(w, namespace)
    ensures Defaulted(s, a, cfg).cluster != "" <==> ClusterUsed(s, a).Some?
  {
    OnlyClusterExactly(a.clusters.value, w, namespace);
    if |a.clusters.value| == 1 {
      assert a.clusters.value[0] in a.clusters.value;
      assert Key(namespace, a.clusters.value[0].name) in w.clusters;
    }
  }

  lemma {:induction false} ProviderFilledExactly(w: World, namespace: string, kind: string, listing: Option<seq<Provider>>, given: string)
    requires Listed(listing, w, namespace, kind) && Named(w)
    ensures ProviderUsed(given, listing) != "" <==> given != "" || HasDefault(Run(w.writes), namespace, kind)
  {
    ChoiceIsTheDefault(w.writes, namespace, kind, listing.value);
    if listing.value != [] { assert listing.value[0] in listing.value; }
  }

  /** A test run passes validation after defaulting exactly when it names a cluster - existing or
      not - or the namespace has exactly one, and for each kind of provider it names one or the
      namespace has a default. */
  lemma {:induction false} AdmittedExactly(s: Spec, a: Answers, w: World, namespace: string, cfg: Config)
    requires Answered(s, a, w, namespace) && Named(w)
    ensures Valid(Defaulted(s, a, cfg))
       <==> && (s.cluster != "" || OneCluster(w, namespace))
            && (s.iut != "" || HasDefault(Run(w.writes), namespace, "iut"))
            && (s.executionSpace != "" || HasDefault(Run(w.writes), namespace, "execution-space"))
            && (s.logArea != "" || HasDefault(Run(w.writes), namespace, "log-area"))
  {
    var t := Defaulted(s, a, cfg);
    ClusterFilledExactly(s, a, w, namespace, cfg);
    ProviderFilledExactly(w, namespace, "iut", a.iuts, s.iut);
    ProviderFilledExactly(w, namespace, "execution-space", a.executionSpaces, s.executionSpace);
    ProviderFilledExactly(w, namespace, "log-area", a.logAreas, s.logArea);
    assert Lacks(t, ClusterField) <==> t.cluster == "";
    assert Lacks(t, Iut) <==> t.iut == "";
    assert Lacks(t, ExecutionSpace) <==> t.executionSpace == "";
    assert Lacks(t, LogArea) <==> t.logArea == "";
  }

  /** Exactly when the cluster of an admitted test run exists: validation does not look. */
  lemma {:induction false} ClusterExistsExactly(s: Spec, a: Answers, w: World, namespace: string, cfg: Config)
    requires Answered(s, a, w, namespace) && Named(w) && Valid(Defaulted(s, a, cfg))
    ensures Key(namespace, Defaulted(s, a, cfg).cluster) in w.clusters
       <==> s.cluster == "" || Key(namespace, s.cluster) in w.clusters
  {
    ClusterFilledExactly(s, a, w, namespace, cfg);
    assert !Lacks(Defaulted(s, a, cfg), ClusterField);
    if s.cluster == "" { assert a.clusters.value[0] in a.clusters.value; }
  }

  const EMPTY_WORLD := World([], map[])
  const LOST := Spec("id", "nowhere", 0, 1, None, None, None, None, "i", "x", "l", None)
  const NOTHING_FOUND := Answers("uuid", 0, Some([]), None, Some([]), Some([]), Some([]))

  /** A test run that names a cluster passes although there is no cluster at all. */
  lemma {:induction false} MissingClusterPasses(cfg: Config)
    ensures Answered(LOST, NOTHING_FOUND, EMPTY_WORLD, "etos") && Named(EMPTY_WORLD)
    ensures Valid(Defaulted(LOST, NOTHING_FOUND, cfg)) && Defaulted(LOST, NOTHING_FOUND, cfg).cluster == "nowhere"
    ensures Key("etos", "nowhere") !in EMPTY_WORLD.clusters
  {
    assert Run([]) == map[];
    AdmittedExactly(LOST, NOTHING_FOUND, EMPTY_WORLD, "etos", cfg);
  }
}
