/** How the configuration parser turns a text into an option of an enumeration: both sides are
    put into lower case and lose their spaces and hyphens, and the first equal option wins. */
module EnumParser {
  import opened Containers

  function ToLower(c: char): char {
    if 'A' <= c <= 'Z' then (c as int + 32) as char else c
  }

  /** The same character, or the two cases of one letter, which ASCII puts 32 apart. */
  predicate SameLetter(c: char, d: char) {
    || c == d
    || ('A' <= c <= 'Z' && d as int == c as int + 32)
    || ('A' <= d <= 'Z' && c as int == d as int + 32)
  }

  /** Lower case forgets the case of letters, and tells all else apart. */
  lemma LowerIffSameLetter(c: char, d: char)
    ensures ToLower(c) == ToLower(d) <==> SameLetter(c, d)
    ensures !('A' <= ToLower(c) <= 'Z')
  {
  }

  function Lowered(s: string): (r: string)
    ensures |r| == |s|
    ensures forall i | 0 <= i < |s| :: r[i] == ToLower(s[i])
  {
    if s == [] then [] else Lowered(s[..|s| - 1]) + [ToLower(s[|s| - 1])]
  }

  /** The text without one character, as erase-remove leaves it. */
  function Without(s: string, c: char): (r: string) {
    if s == [] then [] else Without(s[..|s| - 1], c) + if s[|s| - 1] == c then [] else [s[|s| - 1]]
  }

  function Normal(s: string): (r: string) {
    Without(Without(Lowered(s), ' '), '-')
  }

  predicate Ignored(c: char) { c == ' ' || c == '-' }

  lemma {:induction false} NormalStep(s: string, c: char)
    ensures Normal(s + [c]) == Normal(s) + if Ignored(c) then [] else [ToLower(c)]
  {
    assert (s + [c])[..|s|] == s;
    var l := Lowered(s);
    assert Lowered(s + [c])[..|s|] == l;
    var x := Without(l, ' ');
    if c != ' ' {
      assert (x + [ToLower(c)])[..|x|] == x;
    } else {
      assert x + [] == x;
    }
  }

  lemma NormalEnds(s: string)
    requires s != []
    ensures var first, last := s[..|s| - 1], s[|s| - 1];
            Normal(s) == Normal(first) + if Ignored(last) then [] else [ToLower(last)]
  {
    assert s[..|s| - 1] + [s[|s| - 1]] == s;
    NormalStep(s[..|s| - 1], s[|s| - 1]);
  }

  /** Two texts that differ in letter case and in spaces and hyphens only. */
  ghost predicate Alike(s: string, t: string)
    decreases |s| + |t|
  {
    || (s == [] && t == [])
    || (s != [] && Ignored(s[|s| - 1]) && Alike(s[..|s| - 1], t))
    || (t != [] && Ignored(t[|t| - 1]) && Alike(s, t[..|t| - 1]))
    || (s != [] && t != [] && SameLetter(s[|s| - 1], t[|t| - 1]) && Alike(s[..|s| - 1], t[..|t| - 1]))
  }

  lemma {:induction false} AlikeIsNormal(s: string, t: string)
    requires Alike(s, t)
    ensures Normal(s) == Normal(t)
    decreases |s| + |t|
  {
    hide Normal;
    if s != [] {
      NormalEnds(s);
    }
    if t != [] {
      NormalEnds(t);
    }
    if s == [] && t == [] {
    } else if s != [] && Ignored(s[|s| - 1]) && Alike(s[..|s| - 1], t) {
      AlikeIsNormal(s[..|s| - 1], t);
    } else if t != [] && Ignored(t[|t| - 1]) && Alike(s, t[..|t| - 1]) {
      AlikeIsNormal(s, t[..|t| - 1]);
    } else {
      LowerIffSameLetter(s[|s| - 1], t[|t| - 1]);
      AlikeIsNormal(s[..|s| - 1], t[..|t| - 1]);
    }
  }

  lemma NormalOfNothing()
    ensures Normal([]) == []
  {
  }

  lemma {:induction false} NormalIsAlike(s: string, t: string)
    requires Normal(s) == Normal(t)
    ensures Alike(s, t)
    decreases |s| + |t|
  {
    hide Normal;
    NormalOfNothing();
    if s != [] {
      NormalEnds(s);
    }
    if t != [] {
      NormalEnds(t);
    }
    if s != [] && Ignored(s[|s| - 1]) {
      NormalIsAlike(s[..|s| - 1], t);
    } else if t != [] && Ignored(t[|t| - 1]) {
      NormalIsAlike(s, t[..|t| - 1]);
    } else if s != [] && t != [] {
      SameEnds(Normal(s[..|s| - 1]), Normal(t[..|t| - 1]), ToLower(s[|s| - 1]), ToLower(t[|t| - 1]));
      LowerIffSameLetter(s[|s| - 1], t[|t| - 1]);
      NormalIsAlike(s[..|s| - 1], t[..|t| - 1]);
    }
  }

  lemma SameEnds(x: string, y: string, c: char, d: char)
    requires x + [c] == y + [d]
    ensures x == y && c == d
  {
    assert x == (x + [c])[..|x|] && y == (y + [d])[..|y|];
    assert c == (x + [c])[|x|] && d == (y + [d])[|y|];
  }

  /** The normal form forgets letter case, spaces and hyphens, and nothing else. */
  lemma NormalFormIff(s: string, t: string)
    ensures Normal(s) == Normal(t) <==> Alike(s, t)
  {
    if Normal(s) == Normal(t) {
      NormalIsAlike(s, t);
    }
    if Alike(s, t) {
      AlikeIsNormal(s, t);
    }
  }

  predicate Plain(c: char) { !('A' <= c <= 'Z') && c != ' ' && c != '-' }

  lemma {:induction false} NormalIsPlain(s: string)
    ensures forall c | c in Normal(s) :: Plain(c)
  {
    hide Normal;
    NormalOfNothing();
    if s != [] {
      NormalIsPlain(s[..|s| - 1]);
      NormalEnds(s);
      LowerIffSameLetter(s[|s| - 1], s[|s| - 1]);
    }
  }

  lemma {:induction false} PlainIsNormal(s: string)
    requires forall c | c in s :: Plain(c)
    ensures Normal(s) == s
  {
    hide Normal;
    NormalOfNothing();
    if s != [] {
      assert Plain(s[|s| - 1]);
      PlainIsNormal(s[..|s| - 1]);
      NormalEnds(s);
    }
  }

  /** A normal form has no capital letter, space or hyphen left, differs from its text only by them,
      and is its own normal form. */
  lemma NormalFormIsPlain(s: string)
    ensures forall c | c in Normal(s) :: !('A' <= c <= 'Z') && c != ' ' && c != '-'
    ensures Normal(Normal(s)) == Normal(s) && Alike(s, Normal(s))
  {
    hide Normal, Alike;
    NormalIsPlain(s);
    PlainIsNormal(Normal(s));
    NormalFormIff(s, Normal(s));
  }

  // ------------------------------------------------------------------------- the parser

  method Transform(a: array<char>)
    modifies a
    ensures a[..] == Lowered(old(a[..]))
  {
    ghost var was := a[..];
    for i := 0 to a.Length
      invariant a[..i] == Lowered(was)[..i] && a[i..] == was[i..]
    {
      assert a[i..][0] == was[i];
      a[i] := ToLower(a[i]);
    }
  }

  /** Moves what is not `c` to the front of the first `n` and says how much that is. */
  method Remove(a: array<char>, n: nat, c: char) returns (m: nat)
    requires n <= a.Length
    modifies a
    ensures m <= n && a[..m] == Without(old(a[..n]), c)
  {
    ghost var was := a[..n];
    m := 0;
    for i := 0 to n
      invariant m <= i && a[..m] == Without(was[..i], c) && a[i..n] == was[i..]
    {
      assert was[..i + 1][..i] == was[..i] && a[i..n][0] == was[i] == a[i];
      assert a[i + 1..n] == a[i..n][1..];
      if a[i] != c {
        a[m] := a[i];
        m := m + 1;
      }
    }
    assert was[..n] == was;
  }

  method Normalise(s: string) returns (r: string)
    ensures r == Normal(s)
  {
    var a := new char[|s|](i requires 0 <= i < |s| => s[i]);
    assert a[..] == s;
    Transform(a);
    assert a[..a.Length] == a[..];
    var m := Remove(a, a.Length, ' ');
    m := Remove(a, m, '-');
    r := a[..m];
  }

  predicate Matches(options: seq<string>, i: nat, s: string)
    requires i < |options|
  {
    Normal(options[i]) == Normal(s)
  }

  /** The first option from `i` on that matches. */
  function ParseFrom(options: seq<string>, s: string, i: nat): (e: Option<nat>)
    requires i <= |options|
    decreases |options| - i
  {
    if i == |options| then None
    else if Matches(options, i, s) then Some(i)
    else ParseFrom(options, s, i + 1)
  }

  /** Succeeds exactly when some option equals the text up to letter case, spaces and hyphens,
      and returns the first one; without one the result is left at the last option tried. */
  method NowhitespaceStringToEnum(options: seq<string>, s: string, was: nat) returns (found: bool, e: nat)
    ensures found <==> exists i :: 0 <= i < |options| && Matches(options, i, s)
    ensures found ==> e < |options| && Matches(options, e, s) && forall i | 0 <= i < e :: !Matches(options, i, s)
    ensures ParseFrom(options, s, 0) == if found then Some(e) else None
    ensures !found ==> e == if options == [] then was else |options| - 1
  {
    hide Normal;
    e := was;
    var sNows := Normalise(s);
    for i := 0 to |options|
      invariant forall k | 0 <= k < i :: !Matches(options, k, s)
      invariant ParseFrom(options, s, 0) == ParseFrom(options, s, i)
      invariant e == if i == 0 then was else i - 1
    {
      e := i;
      var sNows2 := Normalise(options[i]);
      if sNows2 == sNows {
        assert Matches(options, i, s);
        return true, e;
      }
    }
    found := false;
  }

  lemma {:induction false} ParseFindsFirst(options: seq<string>, s: string, i: nat, e: nat)
    requires i <= e < |options| && Matches(options, e, s)
    requires forall k | i <= k < e :: !Matches(options, k, s)
    ensures ParseFrom(options, s, i) == Some(e)
    decreases e - i
  {
    hide Matches;
    if i < e {
      ParseFindsFirst(options, s, i + 1, e);
    }
  }

  /** With pairwise distinct normal forms, an option printed in any letter case with any spaces
      and hyphens put in or left out parses back to itself. */
  lemma PrintedParsesBack(options: seq<string>, s: string, e: nat)
    requires e < |options| && Alike(s, options[e])
    requires forall i, j | 0 <= i < j < |options| :: Normal(options[i]) != Normal(options[j])
    ensures ParseFrom(options, s, 0) == Some(e)
  {
    AlikeIsNormal(s, options[e]);
    ParseFindsFirst(options, s, 0, e);
  }

  /** Without that condition an option whose normal form has come before is never found. */
  lemma ShadowedIsUnreachable(options: seq<string>, d: nat, e: nat, s: string)
    requires d < e < |options| && Normal(options[d]) == Normal(options[e])
    ensures ParseFrom(options, s, 0) != Some(e)
  {
    if Matches(options, e, s) {
      NotLater(options, s, 0, d);
    } else {
      OnlyMatches(options, s, 0);
    }
  }

  lemma {:induction false} NotLater(options: seq<string>, s: string, i: nat, d: nat)
    requires i <= d < |options| && Matches(options, d, s)
    ensures ParseFrom(options, s, i).Some? && ParseFrom(options, s, i).value <= d
    decreases d - i
  {
    hide Matches;
    if i < d && !Matches(options, i, s) {
      NotLater(options, s, i + 1, d);
    }
  }

  lemma {:induction false} OnlyMatches(options: seq<string>, s: string, i: nat)
    requires i <= |options|
    ensures ParseFrom(options, s, i).Some? ==>
              ParseFrom(options, s, i).value < |options| && Matches(options, ParseFrom(options, s, i).value, s)
    decreases |options| - i
  {
    hide Matches;
    if i < |options| {
      OnlyMatches(options, s, i + 1);
    }
  }
}
