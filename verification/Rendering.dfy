/**
 Command lines of converted test executions.

 A v1alpha1 execution keeps a command and a map of parameters; its v1beta1 form has only a
 command, to which the parameters are appended in the order of their keys. Go iterates a map in
 any order, so the keys are collected in any order and sorted. Characters are compared by code
 point, which is how Go's comparison of the UTF-8 bytes orders them.
 */
module Rendering {

  // The order of strings.

  predicate Before(a: string, b: string) {
    b != [] && (a == [] || a[0] < b[0] || (a[0] == b[0] && Before(a[1..], b[1..])))
  }

  /** The strings agree up to here, and then the first ends or has the smaller character. */
  predicate Differs(a: string, b: string, i: nat) {
    && i <= |a| && i < |b| && a[..i] == b[..i]
    && (i == |a| || a[i] < b[i])
  }

  /** The order is that of the first difference. */
  lemma {:induction false} BeforeMeaning(a: string, b: string)
    ensures Before(a, b) <==> exists i: nat :: Differs(a, b, i)
  {
    if b == [] {
    } else if a == [] || a[0] < b[0] {
      assert Differs(a, b, 0);
    } else if a[0] == b[0] {
      BeforeMeaning(a[1..], b[1..]);
      if i: nat :| Differs(a[1..], b[1..], i) { DiffersLater(a, b, i); }
      if i: nat :| Differs(a, b, i) { DiffersEarlier(a, b, i); }
    } else {
      forall i: nat ensures !Differs(a, b, i) { LargerFirst(a, b, i); }
    }
  }

  lemma {:induction false} LargerFirst(a: string, b: string, i: nat)
    requires a != [] && b != [] && a[0] > b[0]
    ensures !Differs(a, b, i)
  {
    if 0 < i <= |a| && i < |b| { assert a[..i][0] != b[..i][0]; }
  }

  lemma {:induction false} DiffersLater(a: string, b: string, i: nat)
    requires a != [] && b != [] && a[0] == b[0] && Differs(a[1..], b[1..], i)
    ensures Differs(a, b, i + 1)
  {
    assert a[..i + 1] == [a[0]] + a[1..][..i] && b[..i + 1] == [b[0]] + b[1..][..i];
  }

  lemma {:induction false} DiffersEarlier(a: string, b: string, i: nat)
    requires a != [] && b != [] && a[0] == b[0] && Differs(a, b, i)
    ensures i > 0 && Differs(a[1..], b[1..], i - 1)
  {
    assert a[1..][..i - 1] == a[..i][1..] && b[1..][..i - 1] == b[..i][1..];
  }

  lemma {:induction false} BeforeNotBack(a: string, b: string)
    requires Before(a, b)
    ensures !Before(b, a) && a != b
  {
    if a != [] && a[0] == b[0] { BeforeNotBack(a[1..], b[1..]); }
  }

  lemma {:induction false} BeforeTransitive(a: string, b: string, c: string)
    requires Before(a, b) && Before(b, c)
    ensures Before(a, c)
  {
    if a != [] && a[0] == b[0] == c[0] { BeforeTransitive(a[1..], b[1..], c[1..]); }
  }

  lemma {:induction false} BeforeTotal(a: string, b: string)
    ensures a == b || Before(a, b) || Before(b, a)
  {
    if a != [] && b != [] && a[0] == b[0] {
      BeforeTotal(a[1..], b[1..]);
      assert a == [a[0]] + a[1..] && b == [b[0]] + b[1..];
    }
  }

  predicate Sorted(s: seq<string>) {
    forall i, j :: 0 <= i < j < |s| ==> Before(s[i], s[j])
  }

  ghost predicate Lists(s: seq<string>, keys: set<string>) {
    forall k :: k in s <==> k in keys
  }

  function Insert(s: seq<string>, key: string): (r: seq<string>)
    requires Sorted(s)
    ensures forall k :: k in r <==> k in s || k == key
  {
    if s == [] then [key]
    else
      var last := s[|s| - 1];
      if key == last then s
      else if Before(last, key) then s + [key]
      else Insert(s[..|s| - 1], key) + [last]
  }

  lemma {:induction false} InsertSorts(s: seq<string>, key: string)
    requires Sorted(s)
    ensures Sorted(Insert(s, key))
  {
    if s == [] {
    } else {
      var init, last := s[..|s| - 1], s[|s| - 1];
      if key != last {
        if Before(last, key) {
          forall i | 0 <= i < |init| ensures Before(s[i], key) { BeforeTransitive(s[i], last, key); }
        } else {
          BeforeTotal(last, key);
          InsertSorts(init, key);
          forall i | 0 <= i < |Insert(init, key)| ensures Before(Insert(init, key)[i], last) {
            assert Insert(init, key)[i] in Insert(init, key);
          }
        }
      }
    }
  }

  /** Sorting has one outcome, whatever order the keys came in. */
  lemma {:induction false} SortedUnique(a: seq<string>, b: seq<string>, keys: set<string>)
    requires Sorted(a) && Sorted(b) && Lists(a, keys) && Lists(b, keys)
    ensures a == b
  {
    if a == [] {
      NoneListed(b, keys);
    } else {
      var x := a[|a| - 1];
      assert x in a && x in b;
      LastIs(b, keys, a);
      LastIs(a, keys, b);
      var y := b[|b| - 1];
      SameLast(x, y);
      InitLists(a, keys);
      InitLists(b, keys);
      SortedUnique(a[..|a| - 1], b[..|b| - 1], keys - {x});
    }
  }

  lemma {:induction false} NoneListed(b: seq<string>, keys: set<string>)
    requires Lists([], keys) && Lists(b, keys)
    ensures b == []
  {
    if b == [] {
    } else {
      SomeListed(b);
    }
  }

  lemma {:induction false} SomeListed(b: seq<string>)
    requires b != []
    ensures exists k :: k in b
  {
    assert b[0] in b;
  }

  /** The last of a sorted list comes before or is the last of another with the same members. */
  lemma {:induction false} LastIs(a: seq<string>, keys: set<string>, b: seq<string>)
    requires Sorted(a) && Lists(a, keys) && Lists(b, keys) && a != [] && b != []
    ensures b[|b| - 1] == a[|a| - 1] || Before(b[|b| - 1], a[|a| - 1])
  {
    assert b[|b| - 1] in b;
    var i :| 0 <= i < |a| && a[i] == b[|b| - 1];
  }

  lemma {:induction false} SameLast(x: string, y: string)
    requires x == y || Before(x, y)
    requires x == y || Before(y, x)
    ensures x == y
  {
    if Before(x, y) { BeforeNotBack(x, y); }
  }

  lemma {:induction false} InitLists(a: seq<string>, keys: set<string>)
    requires Sorted(a) && Lists(a, keys) && a != []
    ensures Sorted(a[..|a| - 1]) && Lists(a[..|a| - 1], keys - {a[|a| - 1]})
  {
    var init, last := a[..|a| - 1], a[|a| - 1];
    forall k | k in init ensures k in keys && k != last {
      var i :| 0 <= i < |init| && init[i] == k;
      BeforeNotBack(a[i], last);
    }
  }

  ghost function Ordered(keys: set<string>): (s: seq<string>)
    ensures Sorted(s) && Lists(s, keys)
  {
    if keys == {} then []
    else
      var k :| k in keys;
      InsertSorts(Ordered(keys - {k}), k);
      Insert(Ordered(keys - {k}), k)
  }

  /** Collects the keys in whatever order the map yields them, keeping them sorted. */
  method SortedKeys(keys: set<string>) returns (s: seq<string>)
    ensures s == Ordered(keys)
  {
    s := [];
    var rest := keys;
    while rest != {}
      invariant rest <= keys && Sorted(s) && Lists(s, keys - rest)
      decreases |rest|
    {
      var k :| k in rest;
      InsertSorts(s, k);
      s := Insert(s, k);
      rest := rest - {k};
    }
    assert keys - rest == keys;
    SortedUnique(s, Ordered(keys), keys);
  }

  // Command lines.

  type Parameters = map<string, string>

  function Argument(key: string, value: string): string {
    if value == "" then key else key + "=" + value
  }

  /** The line with these keys and their values appended. */
  function Appended(line: string, keys: seq<string>, parameters: Parameters): string
    requires forall k :: k in keys ==> k in parameters
  {
    if keys == [] then line
    else
      var init, last := keys[..|keys| - 1], keys[|keys| - 1];
      Appended(line, init, parameters) + " " + Argument(last, parameters[last])
  }

  ghost function CommandLine(command: string, parameters: Parameters): string {
    Appended(command, Ordered(parameters.Keys), parameters)
  }

  lemma {:induction false} AppendedNext(line: string, keys: seq<string>, parameters: Parameters, i: nat)
    requires i < |keys| && forall k :: k in keys ==> k in parameters
    ensures Appended(line, keys[..i + 1], parameters)
         == Appended(line, keys[..i], parameters) + " " + Argument(keys[i], parameters[keys[i]])
  {
    assert keys[..i + 1][..i] == keys[..i];
  }

  method AppendAll(command: string, keys: seq<string>, parameters: Parameters) returns (line: string)
    requires forall k :: k in keys ==> k in parameters
    ensures line == Appended(command, keys, parameters)
  {
    line := command;
    for i := 0 to |keys|
      invariant line == Appended(command, keys[..i], parameters)
    {
      AppendedNext(command, keys, parameters, i);
      var value := parameters[keys[i]];
      line := line + " ";
      if value == "" {
        line := line + keys[i];
      } else {
        line := line + (keys[i] + "=" + value);
      }
    }
    assert keys[..|keys|] == keys;
  }

  method Render(command: string, parameters: Parameters) returns (line: string)
    ensures line == CommandLine(command, parameters)
  {
    var keys := SortedKeys(parameters.Keys);
    line := AppendAll(command, keys, parameters);
  }

  lemma {:induction false} Associates(a: string, b: string, c: string, d: string)
    ensures (a + b) + c + d == a + (b + c + d)
  {
  }

  lemma {:induction false} AppendedSplits(line: string, keys: seq<string>, parameters: Parameters)
    requires forall k :: k in keys ==> k in parameters
    ensures Appended(line, keys, parameters) == line + Appended("", keys, parameters)
  {
    if keys == [] {
      assert line + "" == line;
    } else {
      var init, last := keys[..|keys| - 1], keys[|keys| - 1];
      AppendedSplits(line, init, parameters);
      Associates(line, Appended("", init, parameters), " ", Argument(last, parameters[last]));
    }
  }

  // Reading the parameters back.

  /** The position of the last `c`, or -1. */
  function LastOf(s: string, c: char): (p: int)
    ensures -1 <= p < |s|
  {
    if s == [] then -1 else if s[|s| - 1] == c then |s| - 1 else LastOf(s[..|s| - 1], c)
  }

  /** The position of the first `c`, or the length. */
  function FirstOf(s: string, c: char): (p: nat)
    ensures p <= |s|
  {
    if s == [] || s[0] == c then 0 else 1 + FirstOf(s[1..], c)
  }

  function KeyOf(argument: string): string { argument[..FirstOf(argument, '=')] }

  function ValueOf(argument: string): string {
    var p := FirstOf(argument, '=');
    if p < |argument| then argument[p + 1..] else ""
  }

  /** Splits at spaces, and each piece at its first '='. */
  function Decode(arguments: string): Parameters {
    var p := LastOf(arguments, ' ');
    if p < 0 then map[]
    else
      var argument := arguments[p + 1..];
      Decode(arguments[..p])[KeyOf(argument) := ValueOf(argument)]
  }

  predicate Clean(key: string, value: string) {
    ' ' !in key && '=' !in key && ' ' !in value
  }

  predicate AllClean(parameters: Parameters) {
    forall k :: k in parameters ==> Clean(k, parameters[k])
  }

  lemma {:induction false} FirstIs(s: string, p: nat, c: char)
    requires p <= |s| && c !in s[..p] && (p < |s| ==> s[p] == c)
    ensures FirstOf(s, c) == p
  {
    if p == 0 {
    } else {
      assert s[0] == s[..p][0] && s[1..][..p - 1] == s[..p][1..];
      FirstIs(s[1..], p - 1, c);
    }
  }

  lemma {:induction false} LastIsAt(s: string, t: string, c: char)
    requires c !in t
    ensures LastOf(s + [c] + t, c) == |s|
  {
    var whole := s + [c] + t;
    if t == [] {
      assert whole[|whole| - 1] == c;
    } else {
      var init := t[..|t| - 1];
      assert whole[..|whole| - 1] == s + [c] + init && whole[|whole| - 1] == t[|t| - 1];
      LastIsAt(s, init, c);
    }
  }

  lemma {:induction false} ArgumentDecodes(key: string, value: string)
    requires Clean(key, value)
    ensures ' ' !in Argument(key, value)
    ensures KeyOf(Argument(key, value)) == key && ValueOf(Argument(key, value)) == value
  {
    var a := Argument(key, value);
    assert a[..|key|] == key;
    FirstIs(a, |key|, '=');
  }

  function Only(parameters: Parameters, keys: seq<string>): Parameters {
    map k | k in parameters && k in keys :: parameters[k]
  }

  lemma {:induction false} DecodeSnoc(s: string, a: string)
    requires ' ' !in a
    ensures Decode(s + " " + a) == Decode(s)[KeyOf(a) := ValueOf(a)]
  {
    var whole := s + " " + a;
    LastIsAt(s, a, ' ');
    assert whole[..|s|] == s && whole[|s| + 1..] == a;
  }

  lemma {:induction false} OnlySnoc(parameters: Parameters, keys: seq<string>, key: string)
    requires key in parameters
    ensures Only(parameters, keys + [key]) == Only(parameters, keys)[key := parameters[key]]
  {
  }

  lemma {:induction false} AppendedDecodes(line: string, keys: seq<string>, parameters: Parameters)
    requires AllClean(parameters) && (forall k :: k in keys ==> k in parameters) && Decode(line) == map[]
    ensures Decode(Appended(line, keys, parameters)) == Only(parameters, keys)
  {
    if keys == [] {
      assert Only(parameters, keys) == map[];
    } else {
      var init, last := keys[..|keys| - 1], keys[|keys| - 1];
      assert keys == init + [last] && last in keys;
      AppendedDecodes(line, init, parameters);
      OnlySnoc(parameters, init, last);
      ArgumentDecodes(last, parameters[last]);
      DecodeSnoc(Appended(line, init, parameters), Argument(last, parameters[last]));
    }
  }

  lemma {:induction false} NoneAfterLast(s: string, c: char)
    ensures c !in s[LastOf(s, c) + 1..]
  {
    if s == [] || s[|s| - 1] == c {
    } else {
      var init, p := s[..|s| - 1], LastOf(s, c);
      NoneAfterLast(init, c);
      assert s[p + 1..] == init[p + 1..] + [s[|s| - 1]];
    }
  }

  lemma {:induction false} NoneBeforeFirst(s: string, c: char)
    ensures c !in s[..FirstOf(s, c)]
  {
    if s == [] || s[0] == c {
    } else {
      NoneBeforeFirst(s[1..], c);
      assert s[..FirstOf(s, c)] == [s[0]] + s[1..][..FirstOf(s[1..], c)];
    }
  }

  lemma {:induction false} DecodedIsClean(arguments: string)
    ensures AllClean(Decode(arguments))
  {
    var p := LastOf(arguments, ' ');
    if p < 0 {
    } else {
      DecodedIsClean(arguments[..p]);
      var a := arguments[p + 1..];
      NoneAfterLast(arguments, ' ');
      NoneBeforeFirst(a, '=');
    }
  }

  lemma {:induction false} OnlyAll(parameters: Parameters, keys: seq<string>)
    requires Lists(keys, parameters.Keys)
    ensures Only(parameters, keys) == parameters
  {
  }

  lemma {:induction false} Suffix(a: string, b: string)
    ensures a <= a + b && (a + b)[|a|..] == b
  {
  }

  /** Splitting the command line at spaces and each piece at its first '=' gives back the parameters
      exactly when no key has a space or a '=' and no value has a space. */
  lemma {:induction false} DecodesExactly(command: string, parameters: Parameters)
    ensures command <= CommandLine(command, parameters)
    ensures Decode(CommandLine(command, parameters)[|command|..]) == parameters <==> AllClean(parameters)
  {
    var keys := Ordered(parameters.Keys);
    var arguments := Appended("", keys, parameters);
    AppendedSplits(command, keys, parameters);
    Suffix(command, arguments);
    DecodedIsClean(arguments);
    if AllClean(parameters) {
      AppendedDecodes("", keys, parameters);
      OnlyAll(parameters, keys);
    }
  }

  lemma {:induction false} NoParameters(command: string)
    ensures CommandLine(command, map[]) == command
  {
    assert Ordered({}) == [];
  }
}
