/** Which lines the frontmatter repair changes and how, told from the characters of the lines. */
module FrontmatterLaws {
  import opened Wrappers
  import opened Text
  import opened BlockScalars
  import opened Frontmatter

  /** Where a field's parts are: its colon, the start of its scalar, the scalar's end, and its comment's hash,
      or the end of the line. */
  datatype Place = Place(colon: nat, from: nat, to: nat, hash: nat)

  /** The first colon of the line is there, something but blanks is before it, and a blank or nothing behind it. */
  predicate KeyEndsAt(line: string, c: nat) {
    && c < |line| && line[c] == ':' && (forall k :: 0 <= k < c ==> line[k] != ':')
    && (exists k :: 0 <= k < c && !IsWhitespace(line[k]))
    && (c + 1 == |line| || IsWhitespace(line[c + 1]))
  }

  /** A hash at the scalar's start, or behind a blank. */
  predicate CommentAt(line: string, from: nat, k: nat)
    requires from <= k < |line|
  {
    line[k] == '#' && (k == from || IsWhitespace(line[k - 1]))
  }

  /** The scalar that starts at `from`: up to the first comment's hash, blanks before it apart. */
  predicate ScalarPlaced(line: string, from: nat, to: nat, hash: nat) {
    && from <= to <= hash <= |line|
    && (forall k :: from <= k < hash ==> !CommentAt(line, from, k)) && (hash < |line| ==> CommentAt(line, from, hash))
    && (forall k :: to <= k < hash ==> IsWhitespace(line[k])) && (from < to ==> !IsWhitespace(line[to - 1]))
  }

  /** Only blanks are between the colon and the scalar. */
  predicate LeadPlaced(line: string, colon: nat, from: nat) {
    && colon < from <= |line|
    && (forall k :: colon < k < from ==> IsWhitespace(line[k])) && (from < |line| ==> !IsWhitespace(line[from]))
  }

  /** The line is a field with its parts there. */
  predicate Placed(line: string, at: Place) {
    KeyEndsAt(line, at.colon) && LeadPlaced(line, at.colon, at.from) && ScalarPlaced(line, at.from, at.to, at.hash)
  }

  lemma PlaceUnique(line: string, at: Place, at': Place)
    requires Placed(line, at) && Placed(line, at')
    ensures at == at'
  {
    assert at.colon == at'.colon;
    assert at.from == at'.from;
    assert at.hash == at'.hash;
  }

  /** The parts of a line that is a field. */
  function PartsAt(line: string, at: Place): Field
    requires at.colon < at.from <= at.to <= |line|
  {
    Field(line[..at.colon], line[at.colon + 1..at.from], line[at.from..at.to], if at.hash < |line| then line[at.to..] else "")
  }

  lemma SplitAt(line: string, from: nat) returns (to: nat, hash: nat)
    requires from <= |line|
    ensures ScalarPlaced(line, from, to, hash)
    ensures SplitComment(line[from..]) == (line[from..to], if hash < |line| then line[to..] else "")
  {
    var t := line[from..];
    var h := HashAt(t, 0);
    var end := Stop(t[..h]);
    hash, to := from + h, from + end;
    assert t[..end] == line[from..to] && t[end..] == line[to..];
    assert forall k :: 0 <= k < |t| ==> t[k] == line[from + k];
    forall k | from <= k < hash
      ensures !CommentAt(line, from, k)
    {
      assert !IsHash(t, k - from);
    }
    forall k | to <= k < hash
      ensures IsWhitespace(line[k])
    {
      assert t[..h][k - from] == line[k];
    }
    assert from < to ==> t[..h][end - 1] == line[to - 1];
  }

  lemma LeadAt(line: string, c: nat) returns (from: nat)
    requires c < |line|
    ensures var value := line[c + 1..];
            LeadPlaced(line, c, from) && TrimStart(value) == line[from..] && value[..Lead(value)] == line[c + 1..from]
  {
    var value := line[c + 1..];
    from := c + 1 + Lead(value);
    assert forall k :: 0 <= k < |value| ==> value[k] == line[c + 1 + k];
    forall k | c < k < from
      ensures IsWhitespace(line[k])
    {
      assert line[k] == value[k - c - 1];
    }
  }

  lemma FieldPlaced(line: string) returns (at: Place)
    requires IsField(line)
    ensures Placed(line, at) && FieldOf(line) == Some(PartsAt(line, at))
  {
    var c := ColonAt(line);
    var from := LeadAt(line, c);
    var to, hash := SplitAt(line, from);
    at := Place(c, from, to, hash);
    KeyIsThere(line);
  }

  lemma KeyIsThere(line: string)
    ensures IsField(line) <==> KeyEndsAt(line, ColonAt(line))
    ensures forall c :: KeyEndsAt(line, c) ==> c == ColonAt(line)
  {
    var c := ColonAt(line);
    if k :| 0 <= k < c && !IsWhitespace(line[k]) {
      assert line[..c][k] == line[k];
    }
    assert forall k :: 0 <= k < c ==> line[..c][k] == line[k];
  }

  /** A line is a field exactly if it can be placed, and then its parts are those at that place. */
  lemma FieldExactly(line: string)
    ensures FieldOf(line).Some? <==> exists at :: Placed(line, at)
    ensures forall at :: Placed(line, at) ==> FieldOf(line) == Some(PartsAt(line, at))
  {
    KeyIsThere(line);
    if IsField(line) {
      var at := FieldPlaced(line);
      forall at' | Placed(line, at')
        ensures at' == at
      {
        PlaceUnique(line, at, at');
      }
    }
  }

  /** What YAML would trip over in a scalar that is neither quoted nor a block header: a colon with a blank behind
      it, or an indicator that starts what YAML does not accept. */
  predicate Trips(invalid: YamlInvalid, scalar: string) {
    && scalar != "" && scalar[0] != '|' && scalar[0] != '>' && scalar[0] != '\'' && scalar[0] != '"'
    && (|| (exists k :: 0 <= k < |scalar| - 1 && scalar[k] == ':' && IsWhitespace(scalar[k + 1]))
        || ((scalar[0] == '[' || scalar[0] == '{' || scalar[0] == '@' || scalar[0] == '`') && invalid(scalar)))
  }

  ghost predicate HasTrippingScalar(invalid: YamlInvalid, line: string) {
    exists at :: Placed(line, at) && Trips(invalid, line[at.from..at.to])
  }

  /** The line's scalar starts with a block indicator. */
  predicate OpensAt(line: string, at: Place) {
    Placed(line, at) && at.from < at.to && (line[at.from] == '|' || line[at.from] == '>')
  }

  lemma FieldAt(line: string, at: Place)
    requires Placed(line, at)
    ensures FieldOf(line) == Some(PartsAt(line, at))
  {
    FieldExactly(line);
  }

  lemma OpensThere(line: string, at: Place)
    requires Placed(line, at)
    ensures OpensBlock(line) <==> OpensAt(line, at)
  {
    FieldAt(line, at);
    PartsOpen(line, at);
  }

  lemma PartsOpen(line: string, at: Place)
    requires Placed(line, at)
    ensures IsHeader(Some(PartsAt(line, at))) <==> OpensAt(line, at)
  {
    assert at.from < at.to ==> line[at.from..at.to][0] == line[at.from];
  }

  lemma OpensExactly(line: string)
    ensures OpensBlock(line) <==> exists at :: OpensAt(line, at)
  {
    if OpensBlock(line) {
      var at := FieldPlaced(line);
      OpensThere(line, at);
    }
    if at :| OpensAt(line, at) {
      OpensThere(line, at);
    }
  }

  /** The shape of a line: blank or not, its leading spaces, and whether its scalar starts with a block indicator. */
  lemma ShapeExactly(line: string)
    ensures var shape := ShapeOf(line);
            && (shape.blank <==> forall k :: 0 <= k < |line| ==> IsWhitespace(line[k]))
            && shape.indent <= |line| && (forall k :: 0 <= k < shape.indent ==> line[k] == ' ')
            && (shape.indent < |line| ==> line[shape.indent] != ' ')
            && (shape.opens <==> exists at :: OpensAt(line, at))
  {
    OpensExactly(line);
  }

  lemma TripsExactly(invalid: YamlInvalid, scalar: string)
    ensures NeedsQuotes(invalid, scalar) <==> Trips(invalid, scalar)
  {
  }

  lemma TrippingExactly(invalid: YamlInvalid, line: string)
    ensures FieldOf(line).Some? && NeedsQuotes(invalid, FieldOf(line).value.scalar) <==> HasTrippingScalar(invalid, line)
  {
    FieldExactly(line);
    if FieldOf(line).Some? {
      TripsExactly(invalid, FieldOf(line).value.scalar);
    }
  }

  /** The line with its scalar in single quotes. */
  function QuotedAt(line: string, at: Place): string
    requires at.from <= at.to <= |line|
  {
    line[..at.from] + Quote(line[at.from..at.to]) + if at.hash < |line| then line[at.to..] else ""
  }

  /**
   * A line is changed exactly if no earlier line opens a block scalar that reaches to it and it has a scalar
   * that YAML would trip over; then what stands for the scalar is the scalar in single quotes, and everything
   * else is as it was, blanks at the end of a line without a comment apart.
   */
  lemma LineChangesExactly(invalid: YamlInvalid, lines: seq<string>, i: nat)
    requires i < |lines|
    ensures var line, out := lines[i], ScanAll(Classify(invalid), lines).out[i];
            && (out != line <==> !InBlock(Shapes(lines), i) && HasTrippingScalar(invalid, line))
            && forall at :: Placed(line, at) && out != line ==>
                 out == QuotedAt(line, at)
  {
    var line := lines[i];
    ChangedExactly(invalid, lines, i);
    TrippingExactly(invalid, line);
    forall at | Placed(line, at) && ScanAll(Classify(invalid), lines).out[i] != line
      ensures ScanAll(Classify(invalid), lines).out[i] == QuotedAt(line, at)
    {
      OutAt(Classify(invalid), lines, |lines|, i);
      RenderedAt(invalid, ScanUpTo(Classify(invalid), lines, i).block, line, at);
    }
  }

  lemma RenderedAt(invalid: YamlInvalid, block: Option<nat>, line: string, at: Place)
    requires Placed(line, at) && KindOf(invalid, block, line).Unquoted?
    ensures RepairLine(KindOf(invalid, block, line), line) == QuotedAt(line, at)
  {
    FieldAt(line, at);
    UnquotedIs(invalid, block, line);
    PartsGroup(line, at);
  }

  lemma UnquotedIs(invalid: YamlInvalid, block: Option<nat>, line: string)
    requires KindOf(invalid, block, line).Unquoted?
    ensures FieldOf(line).Some?
    ensures RepairLine(KindOf(invalid, block, line), line) == Render(FieldOf(line).value, Quote(FieldOf(line).value.scalar))
  {
  }

  lemma PartsGroup(line: string, at: Place)
    requires Placed(line, at)
    ensures Render(PartsAt(line, at), Quote(line[at.from..at.to])) == QuotedAt(line, at)
  {
    var f := PartsAt(line, at);
    assert line[..at.from] == f.key + ":" + f.lead;
  }

  // ---------------------------------------------------------------- lines, words and fences

  lemma FirstNewline(line: string, rest: string)
    requires '\n' !in line
    ensures NewlineAt(line + "\n" + rest) == |line|
  {
    var text := line + "\n" + rest;
    assert text[|line|] == '\n' && text[..|line|] == line;
    NewlineUnique(text, |line|);
  }

  lemma NewlineUnique(text: string, n: nat)
    requires n < |text| && text[n] == '\n' && '\n' !in text[..n]
    ensures NewlineAt(text) == n
  {
  }

  /** Lines end at newlines; a carriage return right before one is part of the end, and the last line needs none. */
  lemma LinesExactly(line: string, rest: string)
    requires '\n' !in line
    ensures Lines(line) == if line == "" then [] else [line]
    ensures line == "" || line[|line| - 1] != '\r' ==> Lines(line + "\n" + rest) == [line] + Lines(rest)
    ensures Lines((line + "\r") + "\n" + rest) == [line] + Lines(rest)
  {
    FirstNewline(line, rest);
    FirstNewline(line + "\r", rest);
    LineCut(line, rest);
    LineCut(line + "\r", rest);
    assert (line + "\r")[..|line|] == line;
    if line != "" {
      assert NewlineAt(line) == |line|;
      assert line[..|line|] == line;
    }
  }

  lemma LineCut(line: string, rest: string)
    requires '\n' !in line
    ensures Lines(line + "\n" + rest) == [Chomp(line)] + Lines(rest)
  {
    var text := line + "\n" + rest;
    FirstNewline(line, rest);
    assert text[..|line|] == line && text[|line| + 1..] == rest;
  }

  /** Words are what stands between blanks. */
  lemma WordsExactly(c: char, word: string, rest: string)
    requires word != "" && (forall i :: 0 <= i < |word| ==> !IsWhitespace(word[i])) && (rest == "" || IsWhitespace(rest[0]))
    ensures Words("") == []
    ensures IsWhitespace(c) ==> Words([c] + rest) == Words(rest)
    ensures Words(word + rest) == [word] + Words(rest)
  {
    assert ([c] + rest)[1..] == rest;
    WordEndUnique(word, rest);
    assert (word + rest)[..|word|] == word && (word + rest)[|word|..] == rest && (word + rest)[0] == word[0];
  }

  /** Blanks are single spaces, each between two characters that are none. */
  predicate SingleSpaced(s: string) {
    forall i :: 0 <= i < |s| && IsWhitespace(s[i]) ==> s[i] == ' ' && 0 < i < |s| - 1 && !IsWhitespace(s[i - 1]) && !IsWhitespace(s[i + 1])
  }

  lemma {:induction false} JoinedIsSingleSpaced(words: seq<string>)
    requires AreWords(words)
    ensures SingleSpaced(JoinWords(words))
    ensures words != [] ==> JoinWords(words) != "" && !IsWhitespace(JoinWords(words)[0])
  {
    if |words| <= 1 {
    } else {
      var rest := JoinWords(words[1..]);
      JoinedIsSingleSpaced(words[1..]);
      SpacedOn(words[0], rest);
    }
  }

  lemma WordAt(word: string, rest: string, i: nat)
    requires WordEnd(word) == |word| && i < |word|
    ensures !IsWhitespace((word + (" " + rest))[i])
  {
    assert (word + (" " + rest))[i] == word[i];
  }

  lemma SpacedOn(word: string, rest: string)
    requires word != "" && WordEnd(word) == |word|
    requires SingleSpaced(rest) && rest != "" && !IsWhitespace(rest[0])
    ensures SingleSpaced(word + (" " + rest))
  {
    var s := word + (" " + rest);
    forall i | 0 <= i < |s| && IsWhitespace(s[i])
      ensures s[i] == ' ' && 0 < i < |s| - 1 && !IsWhitespace(s[i - 1]) && !IsWhitespace(s[i + 1])
    {
      if i < |word| {
        WordAt(word, rest, i);
      } else if i > |word| {
        SpacedBehind(word, rest, i - |word| - 1);
      } else {
        WordAt(word, rest, i - 1);
        assert s[i + 1] == rest[0];
      }
    }
  }

  lemma SpacedBehind(word: string, rest: string, k: nat)
    requires SingleSpaced(rest) && k < |rest| && IsWhitespace(rest[k])
    ensures var s, i := word + (" " + rest), |word| + 1 + k;
            s[i] == ' ' && 0 < i < |s| - 1 && !IsWhitespace(s[i - 1]) && !IsWhitespace(s[i + 1])
  {
    var s, i := word + (" " + rest), |word| + 1 + k;
    assert s[i - 1] == rest[k - 1] && s[i] == rest[k] && s[i + 1] == rest[k + 1];
  }

  /** A field shown on one line has no blanks but single spaces between its words. */
  lemma SanitizedIsOneLine(raw: string)
    ensures SingleSpaced(SanitizeSingleLine(raw))
  {
    WordsAreWords(raw);
    JoinedIsSingleSpaced(Words(raw));
  }

  /** The lines are a fence, lines that are none, a fence, and the rest. */
  predicate Fenced(lines: seq<string>, front: seq<string>, body: seq<string>) {
    && |lines| == |front| + |body| + 2
    && Trim(lines[0]) == "---" && lines[1..|front| + 1] == front
    && Trim(lines[|front| + 1]) == "---" && lines[|front| + 2..] == body
    && forall i :: 0 <= i < |front| ==> Trim(front[i]) != "---"
  }

  lemma FencedSplits(lines: seq<string>, front: seq<string>, body: seq<string>)
    requires Fenced(lines, front, body)
    ensures SplitAtFences(lines) == Some((front, body))
  {
    assert forall k :: 1 <= k <= |front| ==> lines[k] == lines[1..|front| + 1][k - 1];
    var n := NextFence(lines, 1);
    assert n == |front| + 1;
  }

  /** The frontmatter is split off exactly where there is one between two fences, the first on the first line. */
  lemma FencesExactly(lines: seq<string>, front: seq<string>, body: seq<string>)
    ensures SplitAtFences(lines) == Some((front, body)) <==> Fenced(lines, front, body)
  {
    if Fenced(lines, front, body) {
      FencedSplits(lines, front, body);
    }
  }
}
