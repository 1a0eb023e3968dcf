/**
 Admission of Provider objects: at most one provider of a type may be labelled as the default of
 its namespace. Creates and updates are validated against a listing of the store; writes are
 taken one at a time, each validated on the store it is applied to.
 */
module ProviderAdmission {
  import opened Conditions
  import opened Totals

  const DEFAULT_LABEL := "etos.eiffel-community.github.io/default"

  datatype Key = Key(namespace: string, name: string)
  datatype Provider = Provider(key: Key, kind: string, labels: Option<map<string, string>>)

  type Store = map<Key, Provider>

  predicate IsDefault(p: Provider) {
    p.labels.Some? && DEFAULT_LABEL in p.labels.value && p.labels.value[DEFAULT_LABEL] == "true"
  }

  predicate DefaultOf(p: Provider, namespace: string, kind: string) {
    p.key.namespace == namespace && IsDefault(p) && p.kind == kind
  }

  predicate Stored(store: Store, p: Provider) { p.key in store && store[p.key] == p }

  /** The answer to a list call: the default providers of the type, once each and in any order. */
  ghost predicate IsListing(listing: seq<Provider>, store: Store, namespace: string, kind: string) {
    && NoDuplicates(listing)
    && forall p :: p in listing <==> Stored(store, p) && DefaultOf(p, namespace, kind)
  }

  /** No listing stands for a list call that failed. */
  method ValidateDefaultLabel(provider: Provider, listing: Option<seq<Provider>>) returns (ok: bool)
    ensures ok <==> !IsDefault(provider)
                    || (listing.Some? && forall p :: p in listing.value ==> p.key == provider.key)
  {
    if provider.labels.None? || DEFAULT_LABEL !in provider.labels.value || provider.labels.value[DEFAULT_LABEL] != "true" {
      return true;
    }
    if listing.None? { return false; }
    for i := 0 to |listing.value|
      invariant forall k :: 0 <= k < i ==> listing.value[k].key == provider.key
    {
      var p := listing.value[i];
      if p.key.name == provider.key.name && p.key.namespace == provider.key.namespace { continue; }
      assert p in listing.value;
      return false;
    }
    return true;
  }

  // Runs.

  ghost predicate Clashes(store: Store, p: Provider) {
    IsDefault(p) && exists q :: Stored(store, q) && DefaultOf(q, p.key.namespace, p.kind) && q.key != p.key
  }

  /** What the validation decides on a listing of the store does not depend on its order. */
  lemma {:induction false} ValidationMeaning(store: Store, p: Provider, listing: seq<Provider>)
    requires IsListing(listing, store, p.key.namespace, p.kind)
    ensures (!IsDefault(p) || forall q :: q in listing ==> q.key == p.key) <==> !Clashes(store, p)
  {
  }

  datatype Write =
    | Create(provider: Provider, listed: bool)
    | Update(provider: Provider, listed: bool)
    | Delete(key: Key)

  ghost predicate Admitted(store: Store, p: Provider, listed: bool) {
    !IsDefault(p) || (listed && !Clashes(store, p))
  }

  ghost function Apply(store: Store, w: Write): Store {
    match w
    case Create(p, listed) => if p.key !in store && Admitted(store, p, listed) then store[p.key := p] else store
    case Update(p, listed) => if p.key in store && Admitted(store, p, listed) then store[p.key := p] else store
    case Delete(key) => store - {key}
  }

  ghost function Run(writes: seq<Write>): Store {
    if writes == [] then map[] else Apply(Run(writes[..|writes| - 1]), writes[|writes| - 1])
  }

  ghost predicate Keyed(store: Store) { forall k :: k in store ==> store[k].key == k }

  predicate Rivals(p: Provider, q: Provider) { IsDefault(p) && IsDefault(q) && p.kind == q.kind }

  ghost predicate OneDefault(store: Store) {
    forall k, l :: k in store && l in store && Rivals(store[k], store[l]) && k.namespace == l.namespace ==> k == l
  }

  /** The validation turns away exactly the writes that would give a type a second default. */
  lemma {:induction false} RejectsExactly(store: Store, p: Provider)
    requires Keyed(store) && OneDefault(store)
    ensures OneDefault(store[p.key := p]) <==> !Clashes(store, p)
  {
    var after := store[p.key := p];
    if q :| IsDefault(p) && Stored(store, q) && DefaultOf(q, p.key.namespace, p.kind) && q.key != p.key {
      assert after[q.key] == q && after[p.key] == p && Rivals(p, q);
    } else {
      forall k, l | k in after && l in after && Rivals(after[k], after[l]) && k.namespace == l.namespace
        ensures k == l
      {
        assert k != p.key ==> Stored(store, store[k]);
        assert l != p.key ==> Stored(store, store[l]);
      }
    }
  }

  /** After any run of admitted writes there is at most one default per namespace and type. */
  lemma {:induction false} RunKeepsOneDefault(writes: seq<Write>)
    ensures Keyed(Run(writes)) && OneDefault(Run(writes))
  {
    if writes == [] {
    } else {
      var before, w := Run(writes[..|writes| - 1]), writes[|writes| - 1];
      RunKeepsOneDefault(writes[..|writes| - 1]);
      if !w.Delete? { RejectsExactly(before, w.provider); NotDefault(before, w.provider); }
    }
  }

  lemma {:induction false} NotDefault(store: Store, p: Provider)
    ensures !IsDefault(p) ==> !Clashes(store, p)
  {
  }

  // Choosing the default.

  function FirstName(listing: seq<Provider>): Option<string> {
    if listing == [] then None else Some(listing[0].key.name)
  }

  /** The name of the first provider listed, if there is one. */
  method FindDefaultProvider(listing: Option<seq<Provider>>) returns (name: Option<string>)
    ensures name == if listing.Some? then FirstName(listing.value) else None
  {
    if listing.None? { return None; }
    if |listing.value| == 0 { return None; }
    return Some(listing.value[0].key.name);
  }

  ghost predicate HasDefault(store: Store, namespace: string, kind: string) {
    exists p :: Stored(store, p) && DefaultOf(p, namespace, kind)
  }

  /** On every store that admitted writes lead to, the choice is the one default provider there
      is, whatever the order of the listing. */
  lemma {:induction false} ChoiceIsTheDefault(writes: seq<Write>, namespace: string, kind: string, listing: seq<Provider>)
    requires IsListing(listing, Run(writes), namespace, kind)
    ensures FirstName(listing).Some? <==> HasDefault(Run(writes), namespace, kind)
    ensures |listing| <= 1
    ensures forall p :: Stored(Run(writes), p) && DefaultOf(p, namespace, kind) ==> FirstName(listing) == Some(p.key.name)
  {
    RunKeepsOneDefault(writes);
    if |listing| > 0 { assert listing[0] in listing; }
    if |listing| > 1 { TwoDefaults(Run(writes), namespace, kind, listing); }
  }

  lemma {:induction false} TwoDefaults(store: Store, namespace: string, kind: string, listing: seq<Provider>)
    requires IsListing(listing, store, namespace, kind) && |listing| > 1 && Keyed(store)
    ensures !OneDefault(store)
  {
    var p, q := listing[0], listing[1];
    assert p in listing && q in listing;
    assert Stored(store, p) && Stored(store, q) && p != q && Rivals(store[p.key], store[q.key]);
  }

  lemma {:induction false} ChoiceIgnoresOrder(writes: seq<Write>, namespace: string, kind: string, a: seq<Provider>, b: seq<Provider>)
    requires IsListing(a, Run(writes), namespace, kind) && IsListing(b, Run(writes), namespace, kind)
    ensures FirstName(a) == FirstName(b)
  {
    ChoiceIsTheDefault(writes, namespace, kind, a);
    ChoiceIsTheDefault(writes, namespace, kind, b);
    if a == [] {
    } else {
      assert a[0] in a;
    }
  }
}
