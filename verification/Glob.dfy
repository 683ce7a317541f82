/** The `*` matcher of `catalog.rs`: what it accepts, against the declarative meaning of `*`. */
module Glob {
  import opened Wrappers
  import opened Text

  // ---------------------------------------------------------------- meaning

  /** What a pattern means: `*` stands for any text, every other character for itself. */
  ghost predicate Matches(text: string, pat: string)
    decreases |pat|
  {
    if pat == [] then text == []
    else if pat[0] == '*' then exists k :: 0 <= k <= |text| && Matches(text[k..], pat[1..])
    else text != [] && text[0] == pat[0] && Matches(text[1..], pat[1..])
  }

  // ---------------------------------------------------------------- the algorithm

  /** `split('*')`: one part more than there are stars. */
  function Split(pat: string): (parts: seq<string>)
    ensures |parts| > 0
    ensures forall i :: 0 <= i < |parts| ==> '*' !in parts[i]
  {
    if pat == [] then [[]]
    else
      var rest := Split(pat[1..]);
      if pat[0] == '*' then [[]] + rest else [[pat[0]] + rest[0]] + rest[1..]
  }

  /** `find`: where `part` first occurs in `text`. */
  predicate OccursAt(text: string, part: string, i: nat) {
    i + |part| <= |text| && text[i..i + |part|] == part
  }

  /** Searching from `from` on. */
  function Find(text: string, part: string, from: nat): (at: Option<nat>)
    requires from <= |text|
    ensures at.Some? ==> from <= at.value && OccursAt(text, part, at.value)
    ensures at.Some? ==> forall i :: from <= i < at.value ==> !OccursAt(text, part, i)
    ensures at.None? ==> forall i :: from <= i <= |text| ==> !OccursAt(text, part, i)
    decreases |text| - from
  {
    if OccursAt(text, part, from) then Some(from)
    else if from == |text| then None
    else Find(text, part, from + 1)
  }

  /** Leftmost placement of the parts, one after the other: what is left of `rest` behind them. */
  function Place(rest: string, parts: seq<string>): (left: Option<string>) {
    if parts == [] then Some(rest)
    else if parts[0] == [] then Place(rest, parts[1..])
    else
      var at := Find(rest, parts[0], 0);
      if at.None? then None else Place(rest[at.value + |parts[0]|..], parts[1..])
  }

  /** The verdict of `glob_match`. */
  function GlobSpec(text: string, pat: string): bool {
    var parts := Split(pat);
    if |parts| == 1 then text == pat
    else if !StartsWith(text, parts[0]) then false
    else
      var left := Place(text[|parts[0]|..], parts[1..]);
      left.Some? && (parts[|parts| - 1] == [] || left.value == [])
  }

  lemma PlaceNext(rest: string, parts: seq<string>, i: nat)
    requires i < |parts|
    ensures var at := Find(rest, parts[i], 0);
            Place(rest, parts[i..]) == if parts[i] == [] then Place(rest, parts[i + 1..])
                                       else if at.None? then None
                                       else Place(rest[at.value + |parts[i]|..], parts[i + 1..])
  {
    assert parts[i..][1..] == parts[i + 1..];
  }

  /** The loop over the parts behind the first star. */
  method PlaceParts(text: string, parts: seq<string>, starAtEnd: bool) returns (placed: bool)
    requires parts != [] && (starAtEnd <==> parts[|parts| - 1] == [])
    ensures var left := Place(text, parts);
            placed == (left.Some? && (starAtEnd || left.value == []))
  {
    var rest := text;
    var i := 0;
    while i < |parts|
      invariant 0 <= i <= |parts|
      invariant Place(rest, parts[i..]) == Place(text, parts)
      invariant i == |parts| ==> starAtEnd || rest == []
    {
      PlaceNext(rest, parts, i);
      var part := parts[i];
      if part != [] {
        var at := Find(rest, part, 0);
        if at.None? {
          return false;
        }
        rest := rest[at.value + |part|..];
        if i == |parts| - 1 && !starAtEnd && rest != [] {
          return false;
        }
      }
      i := i + 1;
    }
    return true;
  }

  method GlobMatch(text: string, pat: string) returns (matched: bool)
    ensures matched == GlobSpec(text, pat)
  {
    var parts := Split(pat);
    if |parts| == 1 {
      return text == pat;
    }
    var rest := text;
    if parts[0] != [] {
      if !StartsWith(rest, parts[0]) {
        return false;
      }
      rest := rest[|parts[0]|..];
    }
    SplitEnds(pat);
    matched := PlaceParts(rest, parts[1..], pat != [] && pat[|pat| - 1] == '*');
  }

  lemma {:induction false} SplitEnds(pat: string)
    ensures Split(pat)[|Split(pat)| - 1] == [] <==> pat == [] || pat[|pat| - 1] == '*'
    ensures |Split(pat)| == 1 <==> '*' !in pat
    ensures |Split(pat)| == 1 ==> Split(pat)[0] == pat
  {
    if pat == [] {
    } else {
      SplitEnds(pat[1..]);
      var rest := Split(pat[1..]);
      assert pat == [pat[0]] + pat[1..];
      if pat[0] == '*' {
        assert Split(pat)[|Split(pat)| - 1] == rest[|rest| - 1];
      }
    }
  }

  // ---------------------------------------------------------------- the meaning, part by part

  /** The text reads `*p1*p2…*pn`. */
  ghost predicate Tail(text: string, parts: seq<string>)
    decreases |parts|
  {
    if parts == [] then text == []
    else exists k :: 0 <= k <= |text| && OccursAt(text, parts[0], k) && Tail(text[k + |parts[0]|..], parts[1..])
  }

  lemma TailIntro(text: string, parts: seq<string>, k: nat)
    requires parts != [] && OccursAt(text, parts[0], k) && Tail(text[k + |parts[0]|..], parts[1..])
    ensures Tail(text, parts)
  {
  }

  lemma TailElim(text: string, parts: seq<string>) returns (k: nat)
    requires parts != [] && Tail(text, parts)
    ensures OccursAt(text, parts[0], k) && Tail(text[k + |parts[0]|..], parts[1..])
  {
    k :| 0 <= k <= |text| && OccursAt(text, parts[0], k) && Tail(text[k + |parts[0]|..], parts[1..]);
  }

  /** `OccursAt`, seen from the place it occurs at. */
  lemma OccursHere(text: string, part: string, k: nat)
    requires k <= |text|
    ensures OccursAt(text, part, k) <==> StartsWith(text[k..], part)
    ensures OccursAt(text, part, k) ==> text[k..][|part|..] == text[k + |part|..]
  {
    if k + |part| <= |text| {
      assert text[k..][..|part|] == text[k..k + |part|];
    }
  }

  ghost predicate ByParts(text: string, parts: seq<string>)
    requires parts != []
  {
    StartsWith(text, parts[0]) && Tail(text[|parts[0]|..], parts[1..])
  }

  /** A pattern means what its parts mean, with a star between any two. */
  lemma {:induction false} MatchesByParts(text: string, pat: string)
    ensures Matches(text, pat) <==> ByParts(text, Split(pat))
    decreases |pat|, 1
  {
    if pat == [] {
    } else {
      if pat[0] == '*' {
        StarByParts(text, pat);
      } else {
        CharByParts(text, pat);
      }
    }
  }

  lemma {:induction false} StarByParts(text: string, pat: string)
    requires pat != [] && pat[0] == '*'
    ensures Matches(text, pat) <==> ByParts(text, Split(pat))
    decreases |pat|, 0
  {
    var rest := Split(pat[1..]);
    assert Split(pat)[0] == [] && Split(pat)[1..] == rest && text[0..] == text;
    if Matches(text, pat) {
      var k :| 0 <= k <= |text| && Matches(text[k..], pat[1..]);
      MatchesByParts(text[k..], pat[1..]);
      OccursHere(text, rest[0], k);
      TailIntro(text, rest, k);
    }
    if Tail(text, rest) {
      var k := TailElim(text, rest);
      MatchesByParts(text[k..], pat[1..]);
      OccursHere(text, rest[0], k);
      assert Matches(text[k..], pat[1..]);
    }
  }

  lemma {:induction false} CharByParts(text: string, pat: string)
    requires pat != [] && pat[0] != '*'
    ensures Matches(text, pat) <==> ByParts(text, Split(pat))
    decreases |pat|, 0
  {
    var rest := Split(pat[1..]);
    var parts := Split(pat);
    assert parts[0] == [pat[0]] + rest[0] && parts[1..] == rest[1..];
    if text != [] {
      MatchesByParts(text[1..], pat[1..]);
      StartsWithCons(text, pat[0], rest[0]);
      if StartsWith(text, parts[0]) {
        assert text[1..][|rest[0]|..] == text[|parts[0]|..];
      }
    }
  }

  lemma StartsWithCons(text: string, c: char, p: string)
    requires text != []
    ensures StartsWith(text, [c] + p) <==> text[0] == c && StartsWith(text[1..], p)
  {
    if |p| + 1 <= |text| {
      assert text[..|p| + 1] == [text[0]] + text[1..][..|p|];
      assert ([c] + p)[1..] == p;
    }
  }

  /** A leading star takes up any lead. */
  lemma Absorb(text: string, parts: seq<string>, j: nat)
    requires parts != [] && j <= |text| && Tail(text[j..], parts)
    ensures Tail(text, parts)
  {
    var k := TailElim(text[j..], parts);
    assert text[j..][k..k + |parts[0]|] == text[j + k..j + k + |parts[0]|];
    assert text[j..][k + |parts[0]|..] == text[j + k + |parts[0]|..];
    TailIntro(text, parts, j + k);
  }

  lemma PlaceStep(text: string, parts: seq<string>)
    requires parts != []
    ensures var at := Find(text, parts[0], 0);
            Place(text, parts) == if at.None? then None else Place(text[at.value + |parts[0]|..], parts[1..])
  {
    if parts[0] == [] {
      assert OccursAt(text, [], 0);
      assert text[0..] == text;
    }
  }

  /** What leftmost placement covers is itself an instance of the parts. */
  lemma {:induction false} PlaceSound(text: string, parts: seq<string>)
    requires parts != [] && Place(text, parts).Some?
    ensures var left := Place(text, parts).value;
            && |left| <= |text|
            && text[|text| - |left|..] == left
            && Tail(text[..|text| - |left|], parts)
    decreases |parts|
  {
    PlaceStep(text, parts);
    var p := parts[0];
    var at := Find(text, p, 0).value;
    var rest := text[at + |p|..];
    var left := Place(rest, parts[1..]).value;
    if parts[1..] == [] {
      assert left == rest;
    } else {
      PlaceSound(rest, parts[1..]);
    }
    var n := |text| - |left|;
    PrefixBehind(text, n, at + |p|);
    assert text[..n][at..at + |p|] == text[at..at + |p|];
    TailIntro(text[..n], parts, at);
  }

  /** With a star at the end placement leaves nothing over. */
  lemma {:induction false} PlaceOpen(text: string, parts: seq<string>)
    requires parts != [] && Place(text, parts).Some? && parts[|parts| - 1] == []
    ensures Tail(text, parts)
    decreases |parts|
  {
    PlaceStep(text, parts);
    if parts[1..] == [] {
      assert OccursAt(text, parts[0], |text|);
      assert text[|text| + 0..] == [];
      TailIntro(text, parts, |text|);
    } else {
      var at := Find(text, parts[0], 0).value;
      assert parts[1..][|parts[1..]| - 1] == parts[|parts| - 1];
      PlaceOpen(text[at + |parts[0]|..], parts[1..]);
      TailIntro(text, parts, at);
    }
  }

  lemma PrefixBehind(text: string, n: nat, from: nat)
    requires from <= n <= |text|
    ensures text[..n][from..] == text[from..][..n - from]
  {
  }

  lemma PrefixStarts(text: string, p: string, n: nat)
    requires n <= |text| && StartsWith(text[..n], p)
    ensures |p| <= n && StartsWith(text, p) && text[..n][|p|..] == text[|p|..][..n - |p|]
  {
    assert text[..n][..|p|] == text[..|p|];
    PrefixBehind(text, n, |p|);
  }

  lemma SliceShift(text: string, n: nat, from: nat, m: nat)
    requires from <= m <= n <= |text|
    ensures text[..n][m..] == text[from..][..n - from][m - from..]
  {
  }

  lemma OccursInPrefix(text: string, p: string, n: nat, k: nat)
    requires n <= |text| && OccursAt(text[..n], p, k)
    ensures OccursAt(text, p, k) && k + |p| <= n
  {
    assert text[..n][k..k + |p|] == text[k..k + |p|];
  }

  lemma FindsBy(text: string, p: string, k: nat)
    requires OccursAt(text, p, k)
    ensures Find(text, p, 0).Some? && Find(text, p, 0).value <= k
  {
  }

  /** The first part of an instance is found, no later than the instance has it, and the rest fits behind it. */
  lemma FirstFound(text: string, parts: seq<string>, n: nat) returns (from: nat)
    requires parts != [] && n <= |text| && Tail(text[..n], parts)
    ensures Find(text, parts[0], 0).Some? && from == Find(text, parts[0], 0).value + |parts[0]| && from <= n
    ensures parts[1..] != [] ==> Tail(text[from..][..n - from], parts[1..])
  {
    var p := parts[0];
    var k := TailElim(text[..n], parts);
    OccursInPrefix(text, p, n, k);
    FindsBy(text, p, k);
    from := Find(text, p, 0).value + |p|;
    if parts[1..] != [] {
      TailEarlier(text, parts[1..], n, from, k + |p|);
    }
  }

  /** Leftmost placement is optimal: whatever prefix is an instance of the parts, placement succeeds and
      covers no more of the text. */
  lemma {:induction false} PlaceBest(text: string, parts: seq<string>, n: nat)
    requires parts != [] && n <= |text| && Tail(text[..n], parts)
    ensures Place(text, parts).Some? && |text| - |Place(text, parts).value| <= n
    decreases |parts|
  {
    PlaceStep(text, parts);
    var from := FirstFound(text, parts, n);
    if parts[1..] == [] {
      assert Place(text[from..], parts[1..]) == Some(text[from..]);
    } else {
      PlaceBest(text[from..], parts[1..], n - from);
    }
  }

  /** What is placed behind `m` within the first `n` characters is placed behind `from` as well. */
  lemma TailEarlier(text: string, parts: seq<string>, n: nat, from: nat, m: nat)
    requires parts != [] && from <= m <= n <= |text| && Tail(text[..n][m..], parts)
    ensures Tail(text[from..][..n - from], parts)
  {
    SliceShift(text, n, from, m);
    Absorb(text[from..][..n - from], parts, m - from);
  }

  // ---------------------------------------------------------------- what the matcher accepts

  /** Sound: an accepted text is an instance of the pattern. */
  lemma GlobSound(text: string, pat: string)
    requires GlobSpec(text, pat)
    ensures Matches(text, pat)
  {
    MatchesByParts(text, pat);
    SplitEnds(pat);
    var parts := Split(pat);
    if |parts| > 1 {
      assert parts[1..][|parts[1..]| - 1] == parts[|parts| - 1];
      var rest := text[|parts[0]|..];
      if parts[|parts| - 1] == [] {
        PlaceOpen(rest, parts[1..]);
      } else {
        PlaceSound(rest, parts[1..]);
        assert rest[..|rest|] == rest;
      }
    } else {
      assert text[|parts[0]|..] == [];
    }
  }

  /** Complete for patterns without a star or with a star at the end. */
  lemma GlobComplete(text: string, pat: string)
    requires '*' !in pat || pat[|pat| - 1] == '*'
    ensures GlobSpec(text, pat) <==> Matches(text, pat)
  {
    if GlobSpec(text, pat) {
      GlobSound(text, pat);
    }
    if Matches(text, pat) {
      MatchesByParts(text, pat);
      SplitEnds(pat);
      var parts := Split(pat);
      var rest := text[|parts[0]|..];
      if |parts| > 1 {
        assert rest[..|rest|] == rest;
        PlaceBest(rest, parts[1..], |rest|);
      } else {
        assert text == text[..|parts[0]|] + rest;
      }
    }
  }

  /** For any other pattern the matcher accepts exactly the shortest instances: those of which no proper
      prefix is an instance itself. */
  lemma GlobShortest(text: string, pat: string)
    requires '*' in pat && pat[|pat| - 1] != '*'
    ensures GlobSpec(text, pat) <==>
            Matches(text, pat) && forall n :: 0 <= n < |text| ==> !Matches(text[..n], pat)
  {
    if GlobSpec(text, pat) {
      GlobSound(text, pat);
      forall n | 0 <= n < |text|
        ensures !Matches(text[..n], pat)
      {
        if Matches(text[..n], pat) {
          ShorterInstance(text, pat, n);
        }
      }
    } else if Matches(text, pat) {
      var n := PlacedInstance(text, pat);
      assert Matches(text[..n], pat);
    }
  }

  lemma ShorterInstance(text: string, pat: string, n: nat)
    requires '*' in pat && pat[|pat| - 1] != '*' && n < |text| && Matches(text[..n], pat)
    ensures !GlobSpec(text, pat)
  {
    SplitEnds(pat);
    MatchesByParts(text[..n], pat);
    ShorterByParts(text, pat, Split(pat), n);
  }

  lemma ShorterByParts(text: string, pat: string, parts: seq<string>, n: nat)
    requires parts == Split(pat) && |parts| > 1 && parts[|parts| - 1] != [] && n < |text| && ByParts(text[..n], parts)
    ensures !GlobSpec(text, pat)
  {
    var lead := |parts[0]|;
    PrefixStarts(text, parts[0], n);
    PlaceBest(text[lead..], parts[1..], n - lead);
  }

  lemma PlacedInstance(text: string, pat: string) returns (n: nat)
    requires '*' in pat && pat[|pat| - 1] != '*' && Matches(text, pat) && !GlobSpec(text, pat)
    ensures n < |text| && Matches(text[..n], pat)
  {
    SplitEnds(pat);
    MatchesByParts(text, pat);
    var parts := Split(pat);
    var lead := |parts[0]|;
    var rest := text[lead..];
    assert rest[..|rest|] == rest;
    PlaceBest(rest, parts[1..], |rest|);
    PlaceSound(rest, parts[1..]);
    n := |text| - |Place(rest, parts[1..]).value|;
    assert text[..n][..lead] == text[..lead];
    assert text[..n][lead..] == rest[..n - lead];
    MatchesByParts(text[..n], pat);
  }

  lemma {:induction false} LiteralMatches(pat: string)
    requires '*' !in pat
    ensures Matches(pat, pat)
  {
    if pat == [] {
    } else {
      LiteralMatches(pat[1..]);
    }
  }

  /** A pattern with a star and something behind it has an instance with a proper prefix that is one too:
      what is behind the last star can be written twice. */
  lemma {:induction false} TwoInstances(pat: string) returns (text: string, n: nat)
    requires '*' in pat && pat[|pat| - 1] != '*'
    ensures n < |text| && Matches(text, pat) && Matches(text[..n], pat)
  {
    var rest := pat[1..];
    if '*' !in rest {
      text, n := rest + rest, |rest|;
      LiteralMatches(rest);
      assert text[|rest|..] == rest && text[..n] == rest && rest[0..] == rest;
    } else {
      var long, m := TwoInstances(rest);
      if pat[0] == '*' {
        text, n := long, m;
        assert text[0..] == text && text[..n][0..] == text[..n];
      } else {
        text, n := [pat[0]] + long, m + 1;
        assert text[1..] == long && text[..n][1..] == long[..m];
      }
    }
  }

  /** The matcher is right about every text for exactly the patterns without a star or with one at the end. */
  lemma GlobExactlyForPatterns(pat: string)
    ensures (forall text :: GlobSpec(text, pat) <==> Matches(text, pat)) <==> '*' !in pat || pat[|pat| - 1] == '*'
  {
    if '*' !in pat || pat[|pat| - 1] == '*' {
      forall text ensures GlobSpec(text, pat) <==> Matches(text, pat) {
        GlobComplete(text, pat);
      }
    } else {
      var text, n := TwoInstances(pat);
      ShorterInstance(text, pat, n);
    }
  }

  lemma MatchesStar(text: string, pat: string, k: nat)
    requires k <= |text| && Matches(text[k..], pat)
    ensures Matches(text, "*" + pat)
  {
    assert ("*" + pat)[1..] == pat;
  }

  lemma MatchesChar(c: char, text: string, pat: string)
    requires c != '*' && Matches(text, pat)
    ensures Matches([c] + text, [c] + pat)
  {
    assert ([c] + pat)[1..] == pat && ([c] + text)[1..] == text;
  }

  lemma EndsInB(text: string)
    requires text == "b" || text == "bb"
    ensures Matches("a" + text, "a*b")
  {
    MatchesChar('b', "", "");
    assert "b" == ['b'] + "" && text[|text| - 1..] == "b";
    MatchesStar(text, "b", |text| - 1);
    assert "*" + "b" == "*b" && ['a'] + "*b" == "a*b";
    MatchesChar('a', text, "*b");
  }

  /** So `a*b` misses `abb`, which is an instance of it. */
  lemma GlobMissesLongerInstances(text: string, pat: string)
    requires text == "abb" && pat == "a*b"
    ensures Matches(text, pat) && !GlobSpec(text, pat)
  {
    assert Matches(text, pat) by {
      EndsInB("bb");
      assert text == "a" + "bb";
    }
    assert Matches(text[..2], pat) by {
      EndsInB("b");
      assert text[..2] == "a" + "b";
    }
    ShorterInstance(text, pat, 2);
  }
}
