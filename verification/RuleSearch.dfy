/** The prefix-rule searches of `catalog.rs`: sort by length, longest first, then take the first match. */
module RuleSearch {
  import opened Wrappers
  import opened Text
  import opened Utf8
  import Glob

  datatype Rule<T> = Rule(prefix: string, value: T)

  /** `prefix_matches` */
  predicate PrefixMatches(model: string, prefix: string) {
    if '*' in ToLower(prefix) then Glob.GlobSpec(ToLower(model), ToLower(prefix))
    else StartsWith(ToLower(model), ToLower(prefix))
  }

  /** A prefix without a star matches exactly the models that start with it, case apart. */
  lemma PlainPrefixExactly(model: string, prefix: string)
    requires '*' !in prefix
    ensures PrefixMatches(model, prefix) <==> |prefix| <= |model| && SameButCase(model[..|prefix|], prefix)
  {
    assert '*' !in ToLower(prefix);
    if |prefix| <= |model| {
      LowerExactly(model[..|prefix|], prefix);
      assert ToLower(model)[..|prefix|] == ToLower(model[..|prefix|]);
    }
  }

  lemma StarKept(prefix: string)
    ensures '*' in prefix <==> '*' in ToLower(prefix)
    ensures prefix != [] ==> (prefix[|prefix| - 1] == '*' <==> ToLower(prefix)[|prefix| - 1] == '*')
  {
    if i :| 0 <= i < |prefix| && prefix[i] == '*' {
      assert ToLower(prefix)[i] == '*';
    }
  }

  /** A prefix with a star is a pattern for the whole model, case apart: one that ends in a star matches its
      instances, any other its shortest ones. */
  lemma StarPrefixExactly(model: string, prefix: string)
    requires '*' in prefix
    ensures prefix[|prefix| - 1] == '*' ==> (PrefixMatches(model, prefix) <==> Glob.Matches(ToLower(model), ToLower(prefix)))
    ensures prefix[|prefix| - 1] != '*' ==>
              (PrefixMatches(model, prefix) <==>
                 && Glob.Matches(ToLower(model), ToLower(prefix))
                 && forall n :: 0 <= n < |model| ==> !Glob.Matches(ToLower(model)[..n], ToLower(prefix)))
  {
    StarKept(prefix);
    if prefix[|prefix| - 1] == '*' {
      Glob.GlobComplete(ToLower(model), ToLower(prefix));
    } else {
      Glob.GlobShortest(ToLower(model), ToLower(prefix));
    }
  }

  /** Case never matters, neither the model's nor the table's. */
  lemma CaseDoesNotMatter(model: string, model': string, prefix: string, prefix': string)
    requires SameButCase(model, model') && SameButCase(prefix, prefix')
    ensures PrefixMatches(model, prefix) <==> PrefixMatches(model', prefix')
  {
    LowerExactly(model, model');
    LowerExactly(prefix, prefix');
  }

  /** The length of a character in UTF-8. */
  function CharBytes(c: char): (n: nat)
    ensures 1 <= n <= 4
  {
    if c < '\U{80}' then 1 else if c < '\U{800}' then 2 else if c < '\U{10000}' then 3 else 4
  }

  /** `str::len` */
  function ByteLen(s: string): nat {
    if s == [] then 0 else CharBytes(s[0]) + ByteLen(s[1..])
  }

  /** The UTF-8 form of a character, by the table in section 3 of RFC 3629. */
  function EncodeChar(c: char): Bytes {
    var n := c as int;
    if n < 0x80 then [n as byte]
    else if n < 0x800 then [(0xC0 + n / 0x40) as byte, (0x80 + n % 0x40) as byte]
    else if n < 0x1_0000 then [(0xE0 + n / 0x1000) as byte, (0x80 + n / 0x40 % 0x40) as byte, (0x80 + n % 0x40) as byte]
    else [(0xF0 + n / 0x4_0000) as byte, (0x80 + n / 0x1000 % 0x40) as byte, (0x80 + n / 0x40 % 0x40) as byte, (0x80 + n % 0x40) as byte]
  }

  function Encode(s: string): Bytes {
    if s == [] then [] else EncodeChar(s[0]) + Encode(s[1..])
  }

  lemma EncodedCharIsOne(c: char, rest: Bytes)
    ensures |EncodeChar(c)| == CharBytes(c) && Width(EncodeChar(c) + rest) == CharBytes(c)
  {
    var n, s := c as int, EncodeChar(c) + rest;
    assert n < 0xD800 || 0xE000 <= n < 0x11_0000;
    assert forall i :: 0 <= i < |EncodeChar(c)| ==> s[i] == EncodeChar(c)[i];
  }

  /** The length by which rules are ranked is that of the text's UTF-8 form, which is valid. */
  lemma {:induction false} ByteLenExactly(s: string)
    ensures |Encode(s)| == ByteLen(s) && Valid(Encode(s))
  {
    if s == [] {
    } else {
      var rest := Encode(s[1..]);
      ByteLenExactly(s[1..]);
      EncodedCharIsOne(s[0], rest);
      assert (EncodeChar(s[0]) + rest)[CharBytes(s[0])..] == rest;
    }
  }

  // ---------------------------------------------------------------- sort, then find

  /** Puts an earlier rule before all rules that are not longer. */
  function Insert<T>(r: Rule<T>, ranked: seq<Rule<T>>): seq<Rule<T>> {
    if ranked == [] || ByteLen(ranked[0].prefix) <= ByteLen(r.prefix) then [r] + ranked
    else [ranked[0]] + Insert(r, ranked[1..])
  }

  /** The stable sort by descending length. */
  function Ranked<T>(rules: seq<Rule<T>>): seq<Rule<T>> {
    if rules == [] then [] else Insert(rules[0], Ranked(rules[1..]))
  }

  predicate Descending<T>(ranked: seq<Rule<T>>) {
    forall i, j :: 0 <= i < j < |ranked| ==> ByteLen(ranked[i].prefix) >= ByteLen(ranked[j].prefix)
  }

  function FirstHit<T>(model: string, ranked: seq<Rule<T>>): Option<Rule<T>> {
    if ranked == [] then None
    else if PrefixMatches(model, ranked[0].prefix) then Some(ranked[0])
    else FirstHit(model, ranked[1..])
  }

  lemma {:induction false} InsertRearranges<T>(r: Rule<T>, ranked: seq<Rule<T>>)
    ensures multiset(Insert(r, ranked)) == multiset{r} + multiset(ranked)
  {
    if ranked == [] || ByteLen(ranked[0].prefix) <= ByteLen(r.prefix) {
    } else {
      InsertRearranges(r, ranked[1..]);
      assert ranked == [ranked[0]] + ranked[1..];
    }
  }

  lemma {:induction false} InsertDescends<T>(r: Rule<T>, ranked: seq<Rule<T>>)
    requires Descending(ranked)
    ensures Descending(Insert(r, ranked))
    ensures forall x :: x in Insert(r, ranked) ==> x == r || x in ranked
  {
    if ranked == [] || ByteLen(ranked[0].prefix) <= ByteLen(r.prefix) {
    } else {
      InsertDescends(r, ranked[1..]);
      DescendingCons(ranked[0], Insert(r, ranked[1..]));
    }
  }

  lemma DescendingCons<T>(first: Rule<T>, rest: seq<Rule<T>>)
    requires Descending(rest) && forall x :: x in rest ==> ByteLen(first.prefix) >= ByteLen(x.prefix)
    ensures Descending([first] + rest)
  {
  }

  /** The ranking is a rearrangement of the rules, longest first. */
  lemma {:induction false} RankedSorts<T>(rules: seq<Rule<T>>)
    ensures Descending(Ranked(rules)) && multiset(Ranked(rules)) == multiset(rules)
  {
    if rules == [] {
    } else {
      RankedSorts(rules[1..]);
      InsertDescends(rules[0], Ranked(rules[1..]));
      InsertRearranges(rules[0], Ranked(rules[1..]));
      assert rules == [rules[0]] + rules[1..];
    }
  }

  // ---------------------------------------------------------------- the rule that wins

  /** The rule at `i` matches; every longer rule does not, nor does an equally long one before it. */
  predicate Wins<T>(model: string, rules: seq<Rule<T>>, i: nat) {
    && i < |rules|
    && PrefixMatches(model, rules[i].prefix)
    && (forall j :: 0 <= j < |rules| && PrefixMatches(model, rules[j].prefix) ==>
          || ByteLen(rules[j].prefix) < ByteLen(rules[i].prefix)
          || (ByteLen(rules[j].prefix) == ByteLen(rules[i].prefix) && i <= j))
  }

  /** The rule that wins has that value. */
  ghost predicate WinsWith<T>(model: string, rules: seq<Rule<T>>, value: T) {
    exists i: nat :: Wins(model, rules, i) && rules[i].value == value
  }

  /** There is but one winner, so its value is the only one. */
  lemma WinnerUnique<T>(model: string, rules: seq<Rule<T>>, i: nat, j: nat)
    requires Wins(model, rules, i) && Wins(model, rules, j)
    ensures i == j
  {
  }

  predicate NoMatch<T>(model: string, rules: seq<Rule<T>>) {
    forall j :: 0 <= j < |rules| ==> !PrefixMatches(model, rules[j].prefix)
  }

  /** Inserting a rule changes the first hit only if it matches and no longer rule does. */
  lemma {:induction false} FirstHitInsert<T>(model: string, r: Rule<T>, ranked: seq<Rule<T>>)
    requires Descending(ranked)
    ensures var before := FirstHit(model, ranked);
            FirstHit(model, Insert(r, ranked)) ==
              if PrefixMatches(model, r.prefix) && (before.None? || ByteLen(before.value.prefix) <= ByteLen(r.prefix))
              then Some(r) else before
  {
    if ranked == [] || ByteLen(ranked[0].prefix) <= ByteLen(r.prefix) {
      assert ([r] + ranked)[1..] == ranked;
      FirstHitMember(model, ranked);
    } else {
      assert ([ranked[0]] + Insert(r, ranked[1..]))[1..] == Insert(r, ranked[1..]);
      FirstHitInsert(model, r, ranked[1..]);
    }
  }

  lemma {:induction false} FirstHitMember<T>(model: string, ranked: seq<Rule<T>>)
    ensures FirstHit(model, ranked).Some? ==> FirstHit(model, ranked).value in ranked
  {
    if ranked == [] {
    } else {
      FirstHitMember(model, ranked[1..]);
    }
  }

  /** How the winner among the later rules fares against one more rule before them. */
  lemma WinsCons<T>(model: string, r: Rule<T>, rest: seq<Rule<T>>, i: nat)
    requires NoMatch(model, rest) || Wins(model, rest, i)
    ensures NoMatch(model, [r] + rest) <==> !PrefixMatches(model, r.prefix) && NoMatch(model, rest)
    ensures PrefixMatches(model, r.prefix) && (NoMatch(model, rest) || ByteLen(rest[i].prefix) <= ByteLen(r.prefix)) ==>
              Wins(model, [r] + rest, 0)
    ensures !NoMatch(model, rest) && !(PrefixMatches(model, r.prefix) && ByteLen(rest[i].prefix) <= ByteLen(r.prefix)) ==>
              Wins(model, [r] + rest, i + 1)
  {
    var rules := [r] + rest;
    assert rules[0] == r && forall j :: 0 <= j < |rest| ==> rules[j + 1] == rest[j];
    assert forall j :: 0 < j < |rules| ==> rules[j] == rest[j - 1];
    if !NoMatch(model, rest) {
      assert PrefixMatches(model, rules[i + 1].prefix);
    }
  }

  /** Sort-then-find returns the longest matching rule, the earliest in the table among equally long. */
  lemma {:induction false} RankedHitWins<T>(model: string, rules: seq<Rule<T>>) returns (i: nat)
    ensures FirstHit(model, Ranked(rules)).None? <==> NoMatch(model, rules)
    ensures FirstHit(model, Ranked(rules)).Some? ==>
              Wins(model, rules, i) && FirstHit(model, Ranked(rules)) == Some(rules[i])
  {
    i := 0;
    if rules == [] {
    } else {
      var r, rest := rules[0], rules[1..];
      assert rules == [r] + rest;
      RankedSorts(rest);
      FirstHitInsert(model, r, Ranked(rest));
      i := RankedHitWins(model, rest);
      WinsCons(model, r, rest, i);
      i := if PrefixMatches(model, r.prefix) && (NoMatch(model, rest) || ByteLen(rest[i].prefix) <= ByteLen(r.prefix))
           then 0 else i + 1;
    }
  }

  /** `first_prefix_match` */
  method FirstPrefixMatch<T>(model: string, rules: seq<Rule<T>>) returns (found: Option<T>)
    ensures found.None? <==> NoMatch(model, rules)
    ensures found.Some? ==> WinsWith(model, rules, found.value)
    ensures forall i: nat :: Wins(model, rules, i) ==> found == Some(rules[i].value)
  {
    var ranked := Ranked(rules);
    ghost var at := RankedHitWins(model, rules);
    var i := 0;
    while i < |ranked|
      invariant 0 <= i <= |ranked|
      invariant FirstHit(model, ranked[i..]) == FirstHit(model, ranked)
    {
      if PrefixMatches(model, ranked[i].prefix) {
        found := Some(ranked[i].value);
        assert Wins(model, rules, at);
        forall i: nat | Wins(model, rules, i)
          ensures i == at
        {
          WinnerUnique(model, rules, i, at);
        }
        return;
      }
      assert ranked[i..][1..] == ranked[i + 1..];
      i := i + 1;
    }
    found := None;
  }

  // ---------------------------------------------------------------- full id, then basename

  predicate IsSeparator(c: char) {
    c == '/' || c == ':'
  }

  /** Where the last `/` or `:` ends. */
  function LastPart(model: string): (n: nat)
    ensures n <= |model|
    ensures n > 0 ==> IsSeparator(model[n - 1])
    ensures forall i :: n <= i < |model| ==> !IsSeparator(model[i])
  {
    if model == [] || IsSeparator(model[|model| - 1]) then |model| else LastPart(model[..|model| - 1])
  }

  /** `model_basename` */
  function Basename(model: string): string {
    var base := model[LastPart(model)..];
    if base == [] then model else base
  }

  /** The basename is what stands behind the last slash or colon; a name without either, or ending in one, is its own. */
  lemma BasenameExactly(front: string, separator: char, base: string)
    requires separator in {'/', ':'} && forall i :: 0 <= i < |base| ==> base[i] != '/' && base[i] != ':'
    ensures Basename(base) == base
    ensures Basename(front + [separator] + base) == if base == "" then front + [separator] else base
  {
    var model := front + [separator] + base;
    assert LastPart(base) == 0 && base[0..] == base;
    assert model[|front|] == separator;
    assert forall i :: |front| < i < |model| ==> model[i] == base[i - |front| - 1];
    assert LastPart(model) == |front| + 1;
    assert model[|front| + 1..] == base;
    assert base == "" ==> model == front + [separator];
  }

  /** The basename of a basename is itself, unless the name ends in a separator. */
  lemma BasenameIdempotent(model: string)
    ensures Basename(Basename(model)) == Basename(model)
  {
    var base := model[LastPart(model)..];
    if base != [] {
      assert LastPart(base) == 0;
      assert base[0..] == base;
    }
  }

  /** `family_surface`: the family table, asked for the whole id and then for its basename. */
  method FamilyMatch<T>(model: string, rules: seq<Rule<T>>, default: T) returns (value: T)
    ensures var full := Trim(model);
            var base := Basename(full);
            if !NoMatch(full, rules) then WinsWith(full, rules, value)
            else if !NoMatch(base, rules) then WinsWith(base, rules, value)
            else value == default
  {
    var full := Trim(model);
    var base := Basename(full);
    var ids := [full, base];
    var n := 0;
    while n < 2
      invariant 0 <= n <= 2
      invariant n > 0 ==> NoMatch(full, rules)
      invariant n > 1 ==> NoMatch(base, rules)
    {
      var found := FirstPrefixMatch(ids[n], rules);
      if found.Some? {
        value := found.value;
        return;
      }
      n := n + 1;
    }
    value := default;
  }

  // ---------------------------------------------------------------- order of the table

  lemma {:induction false} ByteLenAppend(s: string, t: string)
    ensures ByteLen(s + t) == ByteLen(s) + ByteLen(t)
  {
    if s == [] {
      assert s + t == t;
    } else {
      assert (s + t)[1..] == s[1..] + t;
      ByteLenAppend(s[1..], t);
    }
  }

  lemma {:induction false} ByteLenLower(s: string)
    ensures ByteLen(ToLower(s)) == ByteLen(s)
  {
    if s == [] {
    } else {
      ByteLenLower(s[1..]);
      assert ToLower(s)[1..] == ToLower(s[1..]);
    }
  }

  /** Two prefixes of one text with the same number of bytes are the same. */
  lemma SamePrefix(s: string, p: string, q: string)
    requires StartsWith(s, p) && StartsWith(s, q) && ByteLen(p) == ByteLen(q)
    ensures p == q
  {
    var short, long := if |p| <= |q| then p else q, if |p| <= |q| then q else p;
    assert long == short + long[|short|..];
    ByteLenAppend(short, long[|short|..]);
  }

  /** No stars, and no two prefixes that differ only in case. */
  predicate PlainTable<T>(rules: seq<Rule<T>>) {
    && (forall i :: 0 <= i < |rules| ==> '*' !in ToLower(rules[i].prefix))
    && (forall i, j :: 0 <= i < j < |rules| ==> ToLower(rules[i].prefix) != ToLower(rules[j].prefix))
  }

  /** In a plain table only one rule of a given length can match. */
  lemma MatchesDiffer<T>(model: string, rules: seq<Rule<T>>, i: nat, j: nat)
    requires PlainTable(rules) && i < |rules| && j < |rules|
    requires PrefixMatches(model, rules[i].prefix) && PrefixMatches(model, rules[j].prefix)
    requires ByteLen(rules[i].prefix) == ByteLen(rules[j].prefix)
    ensures i == j
  {
    ByteLenLower(rules[i].prefix);
    ByteLenLower(rules[j].prefix);
    SamePrefix(ToLower(model), ToLower(rules[i].prefix), ToLower(rules[j].prefix));
  }

  lemma SameMembers<T>(rules: seq<T>, rules': seq<T>)
    requires multiset(rules') == multiset(rules)
    ensures forall r :: r in rules <==> r in rules'
  {
    forall r ensures r in rules <==> r in rules' {
      assert r in rules <==> r in multiset(rules);
      assert r in rules' <==> r in multiset(rules');
    }
  }

  lemma WinnersAgree<T>(model: string, rules: seq<Rule<T>>, rules': seq<Rule<T>>, i: nat, i': nat)
    requires PlainTable(rules) && multiset(rules') == multiset(rules)
    requires Wins(model, rules, i) && Wins(model, rules', i')
    ensures rules[i] == rules'[i']
  {
    SameMembers(rules, rules');
    assert rules[i] in rules' && rules'[i'] in rules;
    var j' :| 0 <= j' < |rules'| && rules'[j'] == rules[i];
    var j :| 0 <= j < |rules| && rules[j] == rules'[i'];
    MatchesDiffer(model, rules, i, j);
  }

  lemma NoMatchAgrees<T>(model: string, rules: seq<Rule<T>>, rules': seq<Rule<T>>)
    requires multiset(rules') == multiset(rules) && NoMatch(model, rules)
    ensures NoMatch(model, rules')
  {
    SameMembers(rules, rules');
    forall j | 0 <= j < |rules'|
      ensures !PrefixMatches(model, rules'[j].prefix)
    {
      assert rules'[j] in rules;
    }
  }

  /** For a plain table the answer does not depend on the order the rules are written in. */
  lemma OrderDoesNotMatter<T>(model: string, rules: seq<Rule<T>>, rules': seq<Rule<T>>)
    requires PlainTable(rules) && multiset(rules') == multiset(rules)
    ensures FirstHit(model, Ranked(rules')) == FirstHit(model, Ranked(rules))
  {
    var i := RankedHitWins(model, rules);
    var i' := RankedHitWins(model, rules');
    if NoMatch(model, rules) {
      NoMatchAgrees(model, rules, rules');
    } else if NoMatch(model, rules') {
      NoMatchAgrees(model, rules', rules);
    } else {
      WinnersAgree(model, rules, rules', i, i');
    }
  }
}
