/**
 Turning any string into a name that is a label in the sense of section 2.1 of RFC 1123: letters,
 digits and inner hyphens. `fold` is the lower-casing of single characters; of it only what it
 does to ASCII is fixed. A negative limit makes the slice operation of the source panic.
 */
module Names {
  import opened Conditions

  predicate Alphanumeric(c: char) { 'a' <= c <= 'z' || '0' <= c <= '9' }

  function AsciiLower(c: char): char { if 'A' <= c <= 'Z' then c - 'A' + 'a' else c }

  ghost predicate LowersAscii(fold: char -> char) {
    forall c: char :: c < 128 as char ==> fold(c) == AsciiLower(c)
  }

  function Lowered(s: string, fold: char -> char): string { seq(|s|, i requires 0 <= i < |s| => fold(s[i])) }

  /** Replaces every run of other characters by one hyphen. */
  function Collapse(s: string): string {
    if s == [] then []
    else
      var init, c := Collapse(s[..|s| - 1]), s[|s| - 1];
      if Alphanumeric(c) then init + [c]
      else if EndsInHyphen(init) then init
      else init + ['-']
  }

  predicate EndsInHyphen(s: string) { s != [] && s[|s| - 1] == '-' }

  function TrimLeft(s: string): string { if s != [] && s[0] == '-' then TrimLeft(s[1..]) else s }

  function TrimRight(s: string): string { if EndsInHyphen(s) then TrimRight(s[..|s| - 1]) else s }

  function Truncate(s: string, limit: nat): string { if |s| > limit then s[..limit] else s }

  function TrimSuffix(s: string): string { if EndsInHyphen(s) then s[..|s| - 1] else s }

  function Trimmed(s: string, fold: char -> char): string { TrimRight(TrimLeft(Collapse(Lowered(s, fold)))) }

  /** The name, or None where the source panics. */
  function ToRFC1123(s: string, limit: int, fold: char -> char): Option<string> {
    if limit < 0 then None else Some(TrimSuffix(Truncate(Trimmed(s, fold), limit)))
  }

  // What a name is.

  predicate Allowed(s: string) { forall i :: 0 <= i < |s| ==> Alphanumeric(s[i]) || s[i] == '-' }

  predicate SingleHyphens(s: string) { forall i :: 0 < i < |s| ==> s[i - 1] != '-' || s[i] != '-' }

  predicate IsName(s: string) {
    Allowed(s) && SingleHyphens(s) && (s != [] ==> s[0] != '-' && s[|s| - 1] != '-')
  }

  /** The letters and digits in it. */
  function Kept(s: string): string {
    if s == [] then []
    else Kept(s[..|s| - 1]) + if Alphanumeric(s[|s| - 1]) then [s[|s| - 1]] else []
  }

  lemma {:induction false} KeptAppend(a: string, b: string)
    ensures Kept(a + b) == Kept(a) + Kept(b)
  {
    if b == [] {
      assert a + b == a;
    } else {
      assert (a + b)[..|a + b| - 1] == a + b[..|b| - 1];
      KeptAppend(a, b[..|b| - 1]);
    }
  }

  lemma {:induction false} KeptPrefix(s: string, n: nat)
    requires n <= |s|
    ensures Kept(s[..n]) <= Kept(s)
  {
    assert s == s[..n] + s[n..];
    KeptAppend(s[..n], s[n..]);
  }

  lemma {:induction false} KeptNone(s: string)
    ensures Kept(s) != [] <==> exists i :: 0 <= i < |s| && Alphanumeric(s[i])
  {
    if s == [] {
    } else {
      var init := s[..|s| - 1];
      KeptNone(init);
      if i :| 0 <= i < |init| && Alphanumeric(init[i]) { assert Alphanumeric(s[i]); }
      if i :| 0 <= i < |s| && Alphanumeric(s[i]) { assert i < |init| ==> Alphanumeric(init[i]); }
    }
  }

  // The steps.

  lemma {:induction false} Collapses(s: string)
    ensures Allowed(Collapse(s)) && SingleHyphens(Collapse(s)) && Kept(Collapse(s)) == Kept(s)
  {
    if s == [] {
    } else {
      Collapses(s[..|s| - 1]);
    }
  }

  lemma {:induction false} KeptFirst(s: string)
    requires s != [] && s[0] == '-'
    ensures Kept(s[1..]) == Kept(s)
  {
    assert s == s[..1] + s[1..];
    KeptAppend(s[..1], s[1..]);
  }

  lemma {:induction false} TrimsLeft(s: string)
    requires Allowed(s) && SingleHyphens(s)
    ensures Allowed(TrimLeft(s)) && SingleHyphens(TrimLeft(s)) && Kept(TrimLeft(s)) == Kept(s)
    ensures TrimLeft(s) != [] ==> TrimLeft(s)[0] != '-'
  {
    if s != [] && s[0] == '-' {
      KeptFirst(s);
      TrimsLeft(s[1..]);
    }
  }

  lemma {:induction false} TrimsRight(s: string)
    requires Allowed(s) && SingleHyphens(s) && (s != [] ==> s[0] != '-')
    ensures IsName(TrimRight(s)) && Kept(TrimRight(s)) == Kept(s)
  {
    if EndsInHyphen(s) { TrimsRight(s[..|s| - 1]); }
  }

  lemma {:induction false} TrimmedIsName(s: string, fold: char -> char)
    ensures IsName(Trimmed(s, fold)) && Kept(Trimmed(s, fold)) == Kept(Lowered(s, fold))
  {
    var low := Lowered(s, fold);
    Collapses(low);
    TrimsLeft(Collapse(low));
    TrimsRight(TrimLeft(Collapse(low)));
  }

  lemma {:induction false} CutIsName(s: string, n: nat)
    requires IsName(s) && n <= |s|
    ensures IsName(TrimSuffix(s[..n])) && Kept(TrimSuffix(s[..n])) == Kept(s[..n])
    ensures TrimSuffix(s[..n]) == [] <==> n == 0 || s == []
  {
  }

  // The words of a string.

  /** The runs of letters and digits. */
  function Words(s: string): (words: seq<string>)
    ensures s != [] && Alphanumeric(s[|s| - 1]) ==> words != []
  {
    if s == [] then []
    else
      var init, c := s[..|s| - 1], s[|s| - 1];
      var words := Words(init);
      if !Alphanumeric(c) then words
      else if init != [] && Alphanumeric(init[|init| - 1]) then words[|words| - 1 := words[|words| - 1] + [c]]
      else words + [[c]]
  }

  function Joined(words: seq<string>): string {
    if words == [] then []
    else if |words| == 1 then words[0]
    else Joined(words[..|words| - 1]) + ['-'] + words[|words| - 1]
  }

  lemma {:induction false} JoinedLonger(words: seq<string>, c: char)
    requires words != []
    ensures Joined(words[|words| - 1 := words[|words| - 1] + [c]]) == Joined(words) + [c]
  {
    var n := |words| - 1;
    assert words[n := words[n] + [c]][..n] == words[..n];
  }

  lemma {:induction false} JoinedMore(words: seq<string>, c: char)
    ensures Joined(words + [[c]]) == if words == [] then [c] else Joined(words) + ['-'] + [c]
  {
    assert (words + [[c]])[..|words|] == words;
  }

  function HyphenUnless(b: bool): string { if b then [] else ['-'] }

  /** Collapsing leaves the words, with a hyphen between any two, and one more at either end if the
      string begins or ends with something else. */
  predicate Spelled(s: string) {
    var spelled := Joined(Words(s));
    if Words(s) == [] then
      Collapse(s) == HyphenUnless(s == []) && (s != [] ==> !Alphanumeric(s[0]) && !Alphanumeric(s[|s| - 1]))
    else
      && s != [] && spelled != [] && Alphanumeric(spelled[0]) && Alphanumeric(spelled[|spelled| - 1])
      && Collapse(s) == HyphenUnless(Alphanumeric(s[0])) + spelled + HyphenUnless(Alphanumeric(s[|s| - 1]))
  }

  lemma {:induction false} SpellsLonger(init: string, c: char)
    requires Spelled(init) && Alphanumeric(c) && init != [] && Alphanumeric(init[|init| - 1])
    ensures Spelled(init + [c])
  {
    assert (init + [c])[..|init|] == init;
    JoinedLonger(Words(init), c);
  }

  lemma {:induction false} SpellsMore(init: string, c: char)
    requires Spelled(init) && Alphanumeric(c) && (init == [] || !Alphanumeric(init[|init| - 1]))
    ensures Spelled(init + [c])
  {
    assert (init + [c])[..|init|] == init;
    JoinedMore(Words(init), c);
  }

  lemma {:induction false} SpellsOther(init: string, c: char)
    requires Spelled(init) && !Alphanumeric(c)
    ensures Spelled(init + [c])
  {
    assert (init + [c])[..|init|] == init;
  }

  lemma {:induction false} Spells(s: string)
    ensures Spelled(s)
  {
    if s == [] {
    } else {
      var init, c := s[..|s| - 1], s[|s| - 1];
      assert s == init + [c];
      Spells(init);
      if !Alphanumeric(c) { SpellsOther(init, c); }
      else if init != [] && Alphanumeric(init[|init| - 1]) { SpellsLonger(init, c); }
      else { SpellsMore(init, c); }
    }
  }

  lemma {:induction false} TrimsTo(before: string, s: string, after: string)
    requires s != [] && s[0] != '-' && s[|s| - 1] != '-'
    requires (before == [] || before == ['-']) && (after == [] || after == ['-'])
    ensures TrimRight(TrimLeft(before + s + after)) == s
  {
    var all := before + s + after;
    if before != [] { assert all[1..] == s + after; }
    assert TrimLeft(all) == s + after;
    if after != [] { assert (s + after)[..|s|] == s; } else { assert s + after == s; }
  }

  /** Before it is cut, a name is the words of the lower-cased string with one hyphen between any two:
      a hyphen stands exactly where something else separates letters and digits. */
  lemma {:induction false} NameIsWords(s: string, fold: char -> char)
    ensures Trimmed(s, fold) == Joined(Words(Lowered(s, fold)))
  {
    var low := Lowered(s, fold);
    Spells(low);
    if Words(low) == [] {
      assert ['-'][1..] == [];
    } else {
      TrimsTo(HyphenUnless(Alphanumeric(low[0])), Joined(Words(low)), HyphenUnless(Alphanumeric(low[|low| - 1])));
    }
  }

  // The result.

  /** The result is a name within the limit; its letters and digits are the first ones of the
      lower-cased input, and all of them if nothing had to be cut. */
  lemma {:induction false} Conforms(s: string, limit: nat, fold: char -> char)
    ensures var r := ToRFC1123(s, limit, fold).value;
            && IsName(r) && |r| <= limit && r <= Trimmed(s, fold)
            && Kept(r) <= Kept(Lowered(s, fold))
            && (|Trimmed(s, fold)| > limit ==> |r| >= limit - 1)
            && (|Trimmed(s, fold)| <= limit ==> Kept(r) == Kept(Lowered(s, fold)))
  {
    TrimmedIsName(s, fold);
    var t := Trimmed(s, fold);
    var n := if |t| > limit then limit else |t|;
    assert t[..|t|] == t;
    CutIsName(t, n);
    KeptPrefix(t, n);
  }

  /** It is empty only when the limit is zero or the input has no letter or digit at all. */
  lemma {:induction false} NonEmptyExactly(s: string, limit: nat, fold: char -> char)
    ensures ToRFC1123(s, limit, fold).value != []
       <==> limit > 0 && exists i :: 0 <= i < |s| && Alphanumeric(fold(s[i]))
  {
    var low, t := Lowered(s, fold), Trimmed(s, fold);
    TrimmedIsName(s, fold);
    var n := if |t| > limit then limit else |t|;
    assert t[..|t|] == t;
    CutIsName(t, n);
    KeptNone(low);
    KeptNone(t);
    assert t != [] ==> Alphanumeric(t[0]);
    if i :| 0 <= i < |s| && Alphanumeric(fold(s[i])) { assert Alphanumeric(low[i]); }
    if i :| 0 <= i < |low| && Alphanumeric(low[i]) { assert Alphanumeric(fold(s[i])); }
  }

  lemma {:induction false} LoweredName(s: string, fold: char -> char)
    requires Allowed(s) && LowersAscii(fold)
    ensures Lowered(s, fold) == s
  {
  }

  lemma {:induction false} CollapseName(s: string)
    requires Allowed(s) && SingleHyphens(s)
    ensures Collapse(s) == s
  {
    if s == [] {
    } else {
      CollapseName(s[..|s| - 1]);
    }
  }

  /** A string is left as it is exactly when it is a name already and fits. */
  lemma {:induction false} UnchangedExactly(s: string, limit: int, fold: char -> char)
    requires LowersAscii(fold)
    ensures ToRFC1123(s, limit, fold) == Some(s) <==> IsName(s) && |s| <= limit
  {
    if limit >= 0 { Conforms(s, limit, fold); }
    if IsName(s) && |s| <= limit {
      LoweredName(s, fold);
      CollapseName(s);
    }
  }

  /** A second time changes nothing. */
  lemma {:induction false} Idempotent(s: string, limit: nat, fold: char -> char)
    requires LowersAscii(fold)
    ensures ToRFC1123(ToRFC1123(s, limit, fold).value, limit, fold) == ToRFC1123(s, limit, fold)
  {
    Conforms(s, limit, fold);
    UnchangedExactly(ToRFC1123(s, limit, fold).value, limit, fold);
  }
}
