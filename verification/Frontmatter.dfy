/** The frontmatter of a SKILL.md: where it is, and how `repair_frontmatter_scalar_fields` quotes the
    scalars YAML would reject. What YAML makes of a flow-like scalar is a parameter. */
module Frontmatter {
  import opened Wrappers
  import opened Text
  import opened BlockScalars

  type YamlInvalid = string -> bool

  // ---------------------------------------------------------------- one line

  /** How many spaces a line starts with. */
  function Indent(line: string): (n: nat)
    ensures n <= |line|
    ensures forall i :: 0 <= i < n ==> line[i] == ' '
    ensures n < |line| ==> line[n] != ' '
  {
    if line != [] && line[0] == ' ' then 1 + Indent(line[1..]) else 0
  }

  /** Where the first colon is; the length of the line if there is none. */
  function ColonAt(line: string): (n: nat)
    ensures n <= |line|
    ensures forall i :: 0 <= i < n ==> line[i] != ':'
    ensures n < |line| ==> line[n] == ':'
  {
    if line == [] || line[0] == ':' then 0 else 1 + ColonAt(line[1..])
  }

  /** A comment may start here: at the front, or behind whitespace. */
  predicate IsHash(t: string, i: nat)
    requires i < |t|
  {
    t[i] == '#' && (i == 0 || IsWhitespace(t[i - 1]))
  }

  /** Where the first comment starts, its hash that is; the length of the text if there is none. */
  function HashAt(t: string, from: nat): (n: nat)
    requires from <= |t|
    ensures from <= n <= |t|
    ensures forall i :: from <= i < n ==> !IsHash(t, i)
    ensures n < |t| ==> IsHash(t, n)
    decreases |t| - from
  {
    if from == |t| || IsHash(t, from) then from else HashAt(t, from + 1)
  }

  /** A `key: scalar # comment` line, taken apart. */
  datatype Field = Field(key: string, lead: string, scalar: string, comment: string)

  /** The value behind the leading whitespace, split into scalar and comment. */
  function SplitComment(t: string): (parts: (string, string)) {
    var hash := HashAt(t, 0);
    var end := Stop(t[..hash]);
    (t[..end], if hash < |t| then t[end..] else "")
  }

  /** The line is `key:`, alone or with whitespace behind it, and the key is not blank. */
  predicate IsField(line: string) {
    var c := ColonAt(line);
    c < |line| && !Blank(line[..c]) && (c + 1 == |line| || IsWhitespace(line[c + 1]))
  }

  function FieldFrom(key: string, value: string): Field {
    var parts := SplitComment(TrimStart(value));
    Field(key, value[..Lead(value)], parts.0, parts.1)
  }

  function FieldOf(line: string): Option<Field> {
    if IsField(line) then Some(FieldFrom(line[..ColonAt(line)], line[ColonAt(line) + 1..])) else None
  }

  /** A colon with whitespace behind it. */
  predicate HasColonSeparator(scalar: string) {
    exists i :: 0 <= i < |scalar| - 1 && scalar[i] == ':' && IsWhitespace(scalar[i + 1])
  }

  /** The scalar is neither quoted nor a block header, and YAML would trip over it. */
  predicate NeedsQuotes(invalid: YamlInvalid, scalar: string) {
    && scalar != []
    && scalar[0] !in ['|', '>', '\'', '"']
    && (HasColonSeparator(scalar) || (scalar[0] in ['[', '{', '@', '`'] && invalid(scalar)))
  }

  function Doubled(s: string): string {
    if s == [] then [] else (if s[0] == '\'' then "''" else [s[0]]) + Doubled(s[1..])
  }

  /** Single-quoted style. */
  function Quote(s: string): string {
    "'" + Doubled(s) + "'"
  }

  function Render(f: Field, value: string): string {
    f.key + ":" + f.lead + value + f.comment
  }

  // ---------------------------------------------------------------- the scanner

  datatype Kind = Body | Plain | Header | Unquoted(field: Field)

  /** A line inside the block scalar whose header is indented by `block`. */
  predicate InBody(block: nat, line: string) {
    Inside(block, ShapeOf(line))
  }

  /** A field whose scalar starts with a block indicator. */
  predicate IsHeader(f: Option<Field>) {
    f.Some? && f.value.scalar != [] && f.value.scalar[0] in ['|', '>']
  }

  predicate OpensBlock(line: string) {
    IsHeader(FieldOf(line))
  }

  function ShapeOf(line: string): Shape {
    Shape(Blank(line), Indent(line), OpensBlock(line))
  }

  function Shapes(lines: seq<string>): (shapes: seq<Shape>)
    ensures |shapes| == |lines|
  {
    seq(|lines|, i requires 0 <= i < |lines| => ShapeOf(lines[i]))
  }

  function KindOfField(invalid: YamlInvalid, f: Option<Field>): Kind {
    if f.None? || f.value.scalar == [] then Plain
    else if IsHeader(f) then Header
    else if NeedsQuotes(invalid, f.value.scalar) then Unquoted(f.value)
    else Plain
  }

  function KindIn(invalid: YamlInvalid, inBody: bool, f: Option<Field>): Kind {
    if inBody then Body else KindOfField(invalid, f)
  }

  function KindOf(invalid: YamlInvalid, block: Option<nat>, line: string): Kind {
    KindIn(invalid, block.Some? && InBody(block.value, line), FieldOf(line))
  }

  function NextBlock(kind: Kind, block: Option<nat>, line: string): Option<nat> {
    match kind
    case Body => block
    case Header => Some(Indent(line))
    case _ => None
  }

  function RepairLine(kind: Kind, line: string): string {
    if kind.Unquoted? then Render(kind.field, Quote(kind.field.scalar)) else line
  }

  /** The scanner after some lines: the block scalar it is in, the lines it wrote, whether it repaired any. */
  datatype Scan = Scan(block: Option<nat>, out: seq<string>, changed: bool)

  /** What the scanner takes a line for, in its state. */
  type Classifier = (Option<nat>, string) -> Kind

  function Classify(invalid: YamlInvalid): Classifier {
    (block: Option<nat>, line: string) => KindOf(invalid, block, line)
  }

  function ScanLine(classify: Classifier, s: Scan, line: string): Scan {
    var kind := classify(s.block, line);
    Scan(NextBlock(kind, s.block, line), s.out + [RepairLine(kind, line)], s.changed || kind.Unquoted?)
  }

  function ScanUpTo(classify: Classifier, lines: seq<string>, n: nat): (s: Scan)
    requires n <= |lines|
    ensures |s.out| == n
  {
    if n == 0 then Scan(None, [], false) else ScanLine(classify, ScanUpTo(classify, lines, n - 1), lines[n - 1])
  }

  function ScanAll(classify: Classifier, lines: seq<string>): Scan {
    ScanUpTo(classify, lines, |lines|)
  }

  function KindAt(classify: Classifier, lines: seq<string>, i: nat): Kind
    requires i < |lines|
  {
    classify(ScanUpTo(classify, lines, i).block, lines[i])
  }

  // ---------------------------------------------------------------- the loops

  /** The loop that looks for the comment. */
  method FindComment(t: string) returns (scalar: string, comment: string)
    ensures (scalar, comment) == SplitComment(t)
  {
    var i := 0;
    while i < |t|
      invariant 0 <= i <= |t|
      invariant HashAt(t, i) == HashAt(t, 0)
    {
      if t[i] == '#' && (i == 0 || IsWhitespace(t[i - 1])) {
        var commentStart := Stop(t[..i]);
        return t[..commentStart], t[commentStart..];
      }
      i := i + 1;
    }
    assert t[..|t|] == t;
    return TrimEnd(t), "";
  }

  /** The loop that looks for a colon with whitespace behind it. */
  method FindColonSeparator(scalar: string) returns (found: bool)
    ensures found <==> HasColonSeparator(scalar)
  {
    found := false;
    var i := 0;
    while i < |scalar|
      invariant 0 <= i <= |scalar|
      invariant forall k :: 0 <= k < i && k < |scalar| - 1 ==> !(scalar[k] == ':' && IsWhitespace(scalar[k + 1]))
    {
      if scalar[i] == ':' && i + 1 < |scalar| && IsWhitespace(scalar[i + 1]) {
        return true;
      }
      i := i + 1;
    }
  }

  method SplitValue(key: string, value: string) returns (field: Option<Field>)
    ensures field == Some(FieldFrom(key, value))
  {
    var trimmedStart := TrimStart(value);
    var leadingWhitespace := value[..|value| - |trimmedStart|];
    var scalar, comment := FindComment(trimmedStart);
    field := Some(Field(key, leadingWhitespace, scalar, comment));
  }

  /** Splits a line at its first colon, if that makes it a field. */
  method SplitKey(line: string) returns (isField: bool, key: string, value: string)
    ensures isField == IsField(line)
    ensures isField ==> key == line[..ColonAt(line)] && value == line[ColonAt(line) + 1..]
  {
    key, value := "", "";
    var colon := ColonAt(line);
    if colon == |line| {
      return false, "", "";
    }
    key, value := line[..colon], line[colon + 1..];
    isField := !Blank(key) && (value == "" || IsWhitespace(value[0]));
  }

  /** Takes a line apart. */
  method ParseField(line: string) returns (field: Option<Field>)
    ensures field == FieldOf(line)
  {
    var isField, key, value := SplitKey(line);
    if !isField {
      return None;
    }
    assert FieldOf(line) == Some(FieldFrom(key, value));
    field := SplitValue(key, value);
  }

  /** Whether a scalar has to be quoted. */
  method MustQuote(invalid: YamlInvalid, scalar: string) returns (needed: bool)
    requires scalar != "" && scalar[0] != '|' && scalar[0] != '>'
    ensures needed == NeedsQuotes(invalid, scalar)
  {
    var first := scalar[0];
    if first == '\'' || first == '"' {
      return false;
    }
    var hasColonSeparator := FindColonSeparator(scalar);
    var invalidFlowLikeScalar := first in ['[', '{', '@', '`'] && invalid(scalar);
    needed := hasColonSeparator || invalidFlowLikeScalar;
  }

  lemma ScanWorkedOff(invalid: YamlInvalid, lines: seq<string>, i: nat)
    requires i < |lines|
    ensures var s := ScanUpTo(Classify(invalid), lines, i);
            var kind := KindOf(invalid, s.block, lines[i]);
            ScanUpTo(Classify(invalid), lines, i + 1) ==
            Scan(NextBlock(kind, s.block, lines[i]), s.out + [RepairLine(kind, lines[i])], s.changed || kind.Unquoted?)
  {
  }

  /** The body of the loop: one line, repaired if need be. */
  method RepairOne(invalid: YamlInvalid, blockScalarIndent: Option<nat>, line: string)
    returns (block: Option<nat>, out: string, changed: bool)
    ensures var kind := KindOf(invalid, blockScalarIndent, line);
            block == NextBlock(kind, blockScalarIndent, line) && out == RepairLine(kind, line) && changed == kind.Unquoted?
  {
    block, out, changed := blockScalarIndent, line, false;
    var indent := Indent(line);
    if block.Some? {
      assert InBody(block.value, line) <==> Blank(line) || indent > block.value;
      if Blank(line) || indent > block.value {
        return;
      }
      block := None;
    }
    var parsed := ParseField(line);
    if parsed.None? || parsed.value.scalar == "" {
      return;
    }
    var Field(key, leadingWhitespace, scalar, comment) := parsed.value;
    if scalar[0] == '|' || scalar[0] == '>' {
      block := Some(indent);
      return;
    }
    changed := MustQuote(invalid, scalar);
    if changed {
      var quotedScalar := Quote(scalar);
      out := key + ":" + leadingWhitespace + quotedScalar + comment;
    }
  }

  /** `repair_frontmatter_scalar_fields`, on lines: `None` when there is nothing to repair. */
  method Repair(invalid: YamlInvalid, lines: seq<string>) returns (repaired: Option<seq<string>>)
    ensures var s := ScanAll(Classify(invalid), lines);
            repaired == if s.changed then Some(s.out) else None
  {
    var changed := false;
    var blockScalarIndent: Option<nat> := None;
    var repairedLines: seq<string> := [];
    var i := 0;
    while i < |lines|
      invariant 0 <= i <= |lines|
      invariant Scan(blockScalarIndent, repairedLines, changed) == ScanUpTo(Classify(invalid), lines, i)
    {
      var block, out, lineChanged := RepairOne(invalid, blockScalarIndent, lines[i]);
      ScanWorkedOff(invalid, lines, i);
      blockScalarIndent := block;
      repairedLines := repairedLines + [out];
      changed := changed || lineChanged;
      i := i + 1;
    }
    repaired := if changed then Some(repairedLines) else None;
  }

  // ---------------------------------------------------------------- single-quoted style

  /** Reads a single-quoted scalar by section 7.3.2 of YAML 1.2.2: a quote pair stands for one quote,
      a quote on its own closes. What follows the closing quote is returned as well. */
  function Unquote(s: string): Option<(string, string)> {
    if s == [] || s[0] != '\'' then None else UnquoteRest(s[1..])
  }

  function UnquoteRest(s: string): Option<(string, string)> {
    if s == [] then None
    else if s[0] == '\'' then
      if |s| >= 2 && s[1] == '\'' then
        var rest := UnquoteRest(s[2..]);
        if rest.None? then None else Some(("'" + rest.value.0, rest.value.1))
      else Some(("", s[1..]))
    else
      var rest := UnquoteRest(s[1..]);
      if rest.None? then None else Some(([s[0]] + rest.value.0, rest.value.1))
  }

  lemma UnquoteStep(c: char, more: string)
    requires UnquoteRest(more).Some?
    ensures UnquoteRest((if c == '\'' then "''" else [c]) + more) ==
            Some(([c] + UnquoteRest(more).value.0, UnquoteRest(more).value.1))
  {
    assert ("''" + more)[2..] == more && ([c] + more)[1..] == more;
  }

  lemma {:induction false} UnquoteDoubled(s: string, rest: string)
    requires rest == [] || rest[0] != '\''
    ensures UnquoteRest(Doubled(s) + "'" + rest) == Some((s, rest))
  {
    if s == [] {
      assert Doubled(s) + "'" + rest == "'" + rest;
      assert ("'" + rest)[1..] == rest;
    } else {
      UnquoteDoubled(s[1..], rest);
      var more := Doubled(s[1..]) + "'" + rest;
      UnquoteStep(s[0], more);
      assert Doubled(s) + "'" + rest == (if s[0] == '\'' then "''" else [s[0]]) + more;
      assert s == [s[0]] + s[1..];
    }
  }

  /** What was quoted reads back as itself, and the comment behind it is left over. */
  lemma UnquoteQuote(s: string, rest: string)
    requires rest == [] || rest[0] != '\''
    ensures Unquote(Quote(s) + rest) == Some((s, rest))
  {
    UnquoteDoubled(s, rest);
    assert (Quote(s) + rest)[1..] == Doubled(s) + "'" + rest;
  }

  // ---------------------------------------------------------------- what a repair keeps

  /** Scalar and comment are the text, with whitespace behind the scalar where there is no comment. */
  lemma SplitReads(t: string) returns (gap: string)
    ensures var (scalar, comment) := SplitComment(t);
            && t == scalar + comment + gap
            && Blank(gap) && (comment != "" ==> gap == "")
            && (scalar != "" && comment != "" ==> IsWhitespace(comment[0]))
            && (scalar != "" ==> scalar[0] == t[0] && !IsWhitespace(scalar[|scalar| - 1]))
  {
    var hash := HashAt(t, 0);
    var end := Stop(t[..hash]);
    gap := if hash < |t| then "" else t[end..];
    if hash < |t| {
      if 0 < end < hash {
        assert IsWhitespace(t[..hash][end]);
      }
    } else {
      assert t[..hash] == t;
    }
  }

  lemma LeadReads(value: string)
    ensures value == value[..Lead(value)] + TrimStart(value) && Blank(value[..Lead(value)])
    ensures TrimStart(value) != "" ==> !IsWhitespace(TrimStart(value)[0])
    ensures TrimStart(value) != "" && IsWhitespace(value[0]) ==> value[..Lead(value)] != ""
  {
  }

  lemma FieldFromReads(key: string, value: string) returns (gap: string)
    requires value == "" || IsWhitespace(value[0])
    ensures var f := FieldFrom(key, value);
            && value == f.lead + (f.scalar + f.comment + gap)
            && Blank(gap) && (f.comment != "" ==> gap == "") && Blank(f.lead)
            && (f.scalar != "" ==> f.lead != "" && !IsWhitespace(f.scalar[0]) && !IsWhitespace(f.scalar[|f.scalar| - 1]))
            && (f.scalar != "" && f.comment != "" ==> IsWhitespace(f.comment[0]))
  {
    LeadReads(value);
    gap := SplitReads(TrimStart(value));
  }

  /** What a field's line looks like. */
  predicate Reads(line: string, f: Field, gap: string) {
    && line == f.key + (":" + (f.lead + (f.scalar + f.comment + gap)))
    && Blank(gap) && (f.comment != "" ==> gap == "")
    && ':' !in f.key && !Blank(f.key) && Blank(f.lead)
    && (f.scalar != "" ==> f.lead != "" && !IsWhitespace(f.scalar[0]) && !IsWhitespace(f.scalar[|f.scalar| - 1]))
    && (f.scalar != "" && f.comment != "" ==> IsWhitespace(f.comment[0]))
  }

  lemma ReadsFrom(line: string, c: nat, f: Field, gap: string)
    requires c < |line| && line[c] == ':' && ':' !in line[..c] && !Blank(line[..c]) && f.key == line[..c]
    requires line[c + 1..] == f.lead + (f.scalar + f.comment + gap)
    requires Blank(gap) && (f.comment != "" ==> gap == "") && Blank(f.lead)
    requires f.scalar != "" ==> f.lead != "" && !IsWhitespace(f.scalar[0]) && !IsWhitespace(f.scalar[|f.scalar| - 1])
    requires f.scalar != "" && f.comment != "" ==> IsWhitespace(f.comment[0])
    ensures Reads(line, f, gap)
  {
    assert line == line[..c] + (":" + line[c + 1..]);
  }

  /** A field's line is its parts, with whitespace behind the scalar where there is no comment. */
  lemma FieldReadsLine(line: string) returns (gap: string)
    requires IsField(line)
    ensures Reads(line, FieldOf(line).value, gap)
  {
    var c := ColonAt(line);
    gap := FieldFromReads(line[..c], line[c + 1..]);
    ReadsFrom(line, c, FieldFrom(line[..c], line[c + 1..]), gap);
  }

  /** A line that is put together from a key and a value comes apart the same way. */
  lemma PartsOf(key: string, lead: string, t: string)
    requires ':' !in key && !Blank(key) && lead != "" && Blank(lead) && t != "" && !IsWhitespace(t[0])
    ensures var line := key + (":" + (lead + t));
            IsField(line) && ColonAt(line) == |key| && line[..|key|] == key && line[|key| + 1..] == lead + t
    ensures Lead(lead + t) == |lead| && TrimStart(lead + t) == t
  {
    var line := key + (":" + (lead + t));
    assert line[|key|] == ':' && line[|key| + 1] == lead[0];
    assert ColonAt(line) == |key|;
    assert line[..|key|] == key;
    LeadUnique(lead + t, |lead|);
  }

  lemma SplitOfQuoted(t: string)
    requires t != "" && t[0] == '\''
    ensures SplitComment(t).0 != "" && SplitComment(t).0[0] == '\''
  {
    var hash := HashAt(t, 0);
    assert hash > 0 && t[..hash][0] == t[0];
    assert Stop(t[..hash]) > 0;
  }

  lemma IndentUnique(line: string, n: nat)
    requires n < |line| && line[n] != ' '
    requires forall i :: 0 <= i < n ==> line[i] == ' '
    ensures Indent(line) == n
  {
  }

  /** Indentation and blankness are settled within the key. */
  lemma KeySettles(key: string, a: string, b: string)
    requires !Blank(key)
    ensures Indent(key + a) == Indent(key + b) && !Blank(key + a)
  {
    var i :| 0 <= i < |key| && !IsWhitespace(key[i]);
    assert (key + a)[i] == key[i];
    var n := Indent(key + a);
    assert n <= i;
    assert forall j :: 0 <= j < |key| ==> (key + a)[j] == key[j] == (key + b)[j];
    IndentUnique(key + b, n);
  }

  /** A repaired line, read with the scalar in single-quoted style. */
  function ReadQuoted(line: string): Option<Field> {
    if !IsField(line) then None else ReadValue(line[..ColonAt(line)], line[ColonAt(line) + 1..])
  }

  function ReadValue(key: string, value: string): Option<Field> {
    var read := Unquote(TrimStart(value));
    if read.None? then None else Some(Field(key, value[..Lead(value)], read.value.0, read.value.1))
  }

  lemma ReadsBack(f: Field, line: string, t: string)
    requires IsField(line) && line[..ColonAt(line)] == f.key && line[ColonAt(line) + 1..] == f.lead + t
    requires Lead(f.lead + t) == |f.lead| && TrimStart(f.lead + t) == t && Unquote(t) == Some((f.scalar, f.comment))
    ensures ReadQuoted(line) == Some(f)
  {
    assert (f.lead + t)[..|f.lead|] == f.lead;
  }

  lemma ScalarBehind(line: string, value: string)
    requires IsField(line) && line[ColonAt(line) + 1..] == value
    ensures FieldOf(line).value.scalar == SplitComment(TrimStart(value)).0
  {
    FieldIs(line, line[..ColonAt(line)], value);
  }

  /** A rendered field is a field again: same key, same whitespace, and a quoted scalar that reads back. */
  lemma RenderedReads(f: Field)
    requires ':' !in f.key && !Blank(f.key) && f.lead != "" && Blank(f.lead)
    requires f.comment != "" ==> IsWhitespace(f.comment[0])
    ensures var out := f.key + (":" + (f.lead + (Quote(f.scalar) + f.comment)));
            && IsField(out) && ReadQuoted(out) == Some(f)
            && FieldOf(out).value.scalar != "" && FieldOf(out).value.scalar[0] == '\''
  {
    UnquoteQuote(f.scalar, f.comment);
    TextReads(f, Quote(f.scalar) + f.comment);
  }

  /** The text reads as the field's scalar and comment, and so does a line put together from it. */
  lemma TextReads(f: Field, t: string)
    requires ':' !in f.key && !Blank(f.key) && f.lead != "" && Blank(f.lead)
    requires t != "" && t[0] == '\'' && Unquote(t) == Some((f.scalar, f.comment))
    ensures var out := f.key + (":" + (f.lead + t));
            && IsField(out) && ReadQuoted(out) == Some(f)
            && FieldOf(out).value.scalar != "" && FieldOf(out).value.scalar[0] == '\''
  {
    var out := f.key + (":" + (f.lead + t));
    PartsOf(f.key, f.lead, t);
    SplitOfQuoted(t);
    ReadsBack(f, out, t);
    ScalarBehind(out, f.lead + t);
  }

  lemma RenderGroups(f: Field, value: string)
    ensures Render(f, value) == f.key + (":" + (f.lead + (value + f.comment)))
  {
  }

  lemma RenderedDiffers(line: string, f: Field, gap: string)
    requires Reads(line, f, gap) && f.scalar != "" && f.scalar[0] != '\''
    ensures f.key + (":" + (f.lead + (Quote(f.scalar) + f.comment))) != line
  {
    var at := |f.key| + 1 + |f.lead|;
    assert (f.key + (":" + (f.lead + (Quote(f.scalar) + f.comment))))[at] == '\'';
    assert line[at] == f.scalar[0];
  }

  /** A repaired line stands where it stood, is not repaired again, and is not what it was. */
  lemma RepairedLineSettled(invalid: YamlInvalid, block: Option<nat>, line: string)
    requires KindOf(invalid, block, line).Unquoted?
    ensures var out := RepairLine(KindOf(invalid, block, line), line);
            && KindOf(invalid, block, out) == Plain
            && ReadQuoted(out) == FieldOf(line)
            && out != line
  {
    var gap := FieldReadsLine(line);
    var f := FieldOf(line).value;
    var a, b := ":" + (f.lead + (Quote(f.scalar) + f.comment)), ":" + (f.lead + (f.scalar + f.comment + gap));
    RenderedReads(f);
    RenderedDiffers(line, f, gap);
    RenderGroups(f, Quote(f.scalar));
    KeySettles(f.key, a, b);
    QuotedIsPlain(invalid, block, f.key + a);
  }

  lemma QuotedIsPlain(invalid: YamlInvalid, block: Option<nat>, line: string)
    requires block.Some? ==> !InBody(block.value, line)
    requires FieldOf(line).Some? && FieldOf(line).value.scalar != "" && FieldOf(line).value.scalar[0] == '\''
    ensures KindOf(invalid, block, line) == Plain
  {
  }

  // ---------------------------------------------------------------- whole frontmatter

  lemma {:induction false} OutAt(classify: Classifier, lines: seq<string>, n: nat, i: nat)
    requires i < n <= |lines|
    ensures ScanUpTo(classify, lines, n).out[i] == RepairLine(KindAt(classify, lines, i), lines[i])
  {
    if i < n - 1 {
      OutAt(classify, lines, n - 1, i);
    }
  }

  /** Every line is either left alone, or its scalar was one YAML rejects and is now quoted: read in
      single-quoted style, the line has the same key, whitespace, scalar and comment. */
  lemma RepairKeepsMeaning(invalid: YamlInvalid, lines: seq<string>, i: nat)
    requires i < |lines|
    ensures var out := ScanAll(Classify(invalid), lines).out;
            && |out| == |lines|
            && (out[i] == lines[i] ||
                (FieldOf(lines[i]).Some? && NeedsQuotes(invalid, FieldOf(lines[i]).value.scalar)
                 && ReadQuoted(out[i]) == FieldOf(lines[i])))
  {
    OutAt(Classify(invalid), lines, |lines|, i);
    if KindAt(Classify(invalid), lines, i).Unquoted? {
      RepairedLineSettled(invalid, ScanUpTo(Classify(invalid), lines, i).block, lines[i]);
    }
  }

  lemma OpeningIsNotBlank(line: string)
    requires OpensBlock(line)
    ensures !Blank(line)
  {
    var c := ColonAt(line);
    KeySettles(line[..c], line[c..], "");
    assert line == line[..c] + line[c..];
  }

  lemma NextBlockByShape(invalid: YamlInvalid, block: Option<nat>, line: string)
    ensures NextBlock(KindOf(invalid, block, line), block, line) == BlockBehind(block, ShapeOf(line))
  {
  }

  lemma {:induction false} BlockByShapes(invalid: YamlInvalid, lines: seq<string>, n: nat)
    requires n <= |lines|
    ensures ScanUpTo(Classify(invalid), lines, n).block == BlockAfter(Shapes(lines), n)
  {
    if n == 0 {
    } else {
      BlockByShapes(invalid, lines, n - 1);
      ScanWorkedOff(invalid, lines, n - 1);
      NextBlockByShape(invalid, ScanUpTo(Classify(invalid), lines, n - 1).block, lines[n - 1]);
    }
  }

  /** The scanner passes over exactly the lines inside a block scalar. */
  lemma BodyExactly(invalid: YamlInvalid, lines: seq<string>, i: nat)
    requires i < |lines|
    ensures KindAt(Classify(invalid), lines, i) == Body <==> InBlock(Shapes(lines), i)
  {
    BlockByShapes(invalid, lines, i);
    forall k | 0 <= k < |lines| && Shapes(lines)[k].opens
      ensures !Shapes(lines)[k].blank
    {
      OpeningIsNotBlank(lines[k]);
    }
    InsideExactly(Shapes(lines), i);
  }

  /** A line is changed exactly when its scalar needs quotes and it is not inside a block scalar. */
  lemma ChangedExactly(invalid: YamlInvalid, lines: seq<string>, i: nat)
    requires i < |lines|
    ensures ScanAll(Classify(invalid), lines).out[i] != lines[i] <==>
              !InBlock(Shapes(lines), i) && FieldOf(lines[i]).Some? && NeedsQuotes(invalid, FieldOf(lines[i]).value.scalar)
  {
    OutAt(Classify(invalid), lines, |lines|, i);
    BodyExactly(invalid, lines, i);
    if KindAt(Classify(invalid), lines, i).Unquoted? {
      RepairedLineSettled(invalid, ScanUpTo(Classify(invalid), lines, i).block, lines[i]);
    }
  }

  /** The lines of a block scalar are never touched, nor is its header. */
  lemma BlockScalarsUntouched(invalid: YamlInvalid, lines: seq<string>, h: nat, i: nat)
    requires h < i < |lines| && Covers(Shapes(lines), h, i)
    ensures var out := ScanAll(Classify(invalid), lines).out;
            out[i] == lines[i] && out[h] == lines[h]
  {
    ChangedExactly(invalid, lines, i);
    ChangedExactly(invalid, lines, h);
    assert Shapes(lines)[h] == ShapeOf(lines[h]);
  }

  /** What is repaired is plain afterwards, in the same state. */
  predicate Settles(classify: Classifier, block: Option<nat>, line: string) {
    var kind := classify(block, line);
    kind.Unquoted? ==> classify(block, RepairLine(kind, line)) == Plain
  }

  /** A second scan goes through the same states and finds nothing to repair. */
  lemma {:induction false} SecondScan(classify: Classifier, lines: seq<string>, n: nat)
    requires n <= |lines|
    requires forall block, line :: Settles(classify, block, line)
    ensures var out := ScanAll(classify, lines).out;
            ScanUpTo(classify, out, n) == Scan(ScanUpTo(classify, lines, n).block, out[..n], false)
  {
    var out := ScanAll(classify, lines).out;
    if n == 0 {
    } else {
      SecondScan(classify, lines, n - 1);
      OutAt(classify, lines, |lines|, n - 1);
      assert Settles(classify, ScanUpTo(classify, lines, n - 1).block, lines[n - 1]);
      assert out[..n] == out[..n - 1] + [out[n - 1]];
    }
  }

  lemma ClassifySettles(invalid: YamlInvalid)
    ensures forall block, line :: Settles(Classify(invalid), block, line)
  {
    forall block, line ensures Settles(Classify(invalid), block, line) {
      if KindOf(invalid, block, line).Unquoted? {
        RepairedLineSettled(invalid, block, line);
      }
    }
  }

  /** Repairing is idempotent: repaired lines need no repair. */
  lemma RepairIdempotent(invalid: YamlInvalid, lines: seq<string>)
    ensures var s := ScanAll(Classify(invalid), lines);
            ScanAll(Classify(invalid), s.out) == Scan(s.block, s.out, false)
  {
    ClassifySettles(invalid);
    SecondScan(Classify(invalid), lines, |lines|);
    var out := ScanAll(Classify(invalid), lines).out;
    assert out[..|lines|] == out;
  }

  // ---------------------------------------------------------------- text and lines

  function NewlineAt(text: string): (n: nat)
    ensures n <= |text|
    ensures '\n' !in text[..n]
    ensures n < |text| ==> text[n] == '\n'
  {
    if text == [] || text[0] == '\n' then 0
    else
      var n := 1 + NewlineAt(text[1..]);
      assert text[..n] == [text[0]] + text[1..][..n - 1];
      n
  }

  /** The carriage return of a line end. */
  function Chomp(line: string): string {
    if line != [] && line[|line| - 1] == '\r' then line[..|line| - 1] else line
  }

  /** `str::lines` */
  function Lines(text: string): (lines: seq<string>)
    ensures forall i :: 0 <= i < |lines| ==> '\n' !in lines[i]
  {
    if text == [] then []
    else
      var n := NewlineAt(text);
      if n == |text| then
        assert text[..n] == text;
        [text]
      else [Chomp(text[..n])] + Lines(text[n + 1..])
  }

  /** `join("\n")` */
  function Join(lines: seq<string>): string {
    if lines == [] then "" else if |lines| == 1 then lines[0] else lines[0] + ("\n" + Join(lines[1..]))
  }

  /** The lines of joined lines: a last empty line is lost, and so is a carriage return before a line end. */
  function Reread(lines: seq<string>): seq<string> {
    if lines == [] then []
    else if |lines| == 1 then if lines[0] == "" then [] else lines
    else [Chomp(lines[0])] + Reread(lines[1..])
  }

  lemma {:induction false} LinesOfJoin(lines: seq<string>)
    requires forall i :: 0 <= i < |lines| ==> '\n' !in lines[i]
    ensures Lines(Join(lines)) == Reread(lines)
  {
    if |lines| == 1 {
      var text := lines[0];
      assert text != "" ==> NewlineAt(text) == |text|;
    } else if |lines| > 1 {
      LinesOfJoin(lines[1..]);
      var first, rest := lines[0], Join(lines[1..]);
      var text := first + ("\n" + rest);
      assert text[|first|] == '\n' && text[..|first|] == first && text[|first| + 1..] == rest;
      assert NewlineAt(text) == |first|;
    }
  }

  // ---------------------------------------------------------------- repaired text

  /** The classification does not hang on a carriage return at the end of the line. */
  predicate ChompSafe(classify: Classifier, block: Option<nat>, line: string) {
    var kind, chomped := classify(block, line), classify(block, Chomp(line));
    !kind.Unquoted? ==> !chomped.Unquoted? && NextBlock(chomped, block, Chomp(line)) == NextBlock(kind, block, line)
  }

  lemma ChompShape(line: string)
    ensures Indent(Chomp(line)) == Indent(line)
    ensures Blank(Chomp(line)) <==> Blank(line)
  {
    if Chomp(line) != line {
      assert line == Chomp(line) + "\r";
    }
  }

  lemma HashUnique(t: string, n: nat)
    requires n <= |t|
    requires forall i :: 0 <= i < n ==> !IsHash(t, i)
    requires n < |t| ==> IsHash(t, n)
    ensures HashAt(t, 0) == n
  {
  }

  lemma HashExtended(u: string)
    ensures var hash := HashAt(u, 0);
            HashAt(u + "\r", 0) == if hash < |u| then hash else |u| + 1
  {
    var t := u + "\r";
    assert t[|u|] == '\r' && forall i :: 0 <= i < |u| ==> u[i] == t[i];
    assert forall i :: 0 <= i < |u| ==> IsHash(u, i) == IsHash(t, i);
    HashUnique(t, if HashAt(u, 0) < |u| then HashAt(u, 0) else |u| + 1);
  }

  lemma StopExtended(u: string)
    ensures Stop(u + "\r") == Stop(u)
  {
    assert (u + "\r")[..|u|] == u;
  }

  lemma ChompSplit(t: string)
    ensures SplitComment(Chomp(t)).0 == SplitComment(t).0
  {
    var u := Chomp(t);
    if u != t {
      assert t == u + "\r";
      HashExtended(u);
      var hash := HashAt(u, 0);
      if hash < |u| {
        assert u[..hash] == t[..hash];
      } else {
        assert u[..|u|] == u && t[..|t|] == t;
        StopExtended(u);
      }
    }
  }

  lemma ChompTrim(value: string)
    ensures TrimStart(Chomp(value)) == Chomp(TrimStart(value))
  {
    var u := Chomp(value);
    if u != value {
      assert value == u + "\r";
      if Lead(value) < |value| {
        LeadUnique(u, Lead(value));
      } else {
        LeadUnique(u, |u|);
      }
    }
  }

  lemma ColonUnique(line: string, n: nat)
    requires n <= |line|
    requires forall i :: 0 <= i < n ==> line[i] != ':'
    requires n < |line| ==> line[n] == ':'
    ensures ColonAt(line) == n
  {
  }

  /** What is behind the colon of a line ends like the line. */
  lemma ChompBehind(line: string, c: nat)
    requires c < |line| && line[c] == ':'
    ensures c < |Chomp(line)| && Chomp(line)[..c] == line[..c] && Chomp(line)[c + 1..] == Chomp(line[c + 1..])
  {
    var behind := line[c + 1..];
    if behind != [] {
      assert behind[|behind| - 1] == line[|line| - 1];
      assert line[..|line| - 1][c + 1..] == behind[..|behind| - 1];
    }
  }

  /** The carriage return is behind the colon, if there is one. */
  lemma ChompColon(line: string)
    ensures ColonAt(Chomp(line)) == if ColonAt(line) < |line| then ColonAt(line) else |Chomp(line)|
  {
    var u, c := Chomp(line), ColonAt(line);
    if c < |line| {
      ChompBehind(line, c);
    }
    assert forall i :: 0 <= i < |u| ==> u[i] == line[i];
    ColonUnique(u, if c < |line| then c else |u|);
  }

  lemma ChompScalar(key: string, value: string)
    ensures FieldFrom(key, Chomp(value)).scalar == FieldFrom(key, value).scalar
  {
    ChompTrim(value);
    ChompSplit(TrimStart(value));
  }

  lemma ChompIsField(line: string)
    ensures IsField(Chomp(line)) <==> IsField(line)
  {
    var c := ColonAt(line);
    ChompColon(line);
    if c < |line| {
      ChompBehind(line, c);
      ChompStart(line[c + 1..]);
    }
  }

  lemma FieldIs(line: string, key: string, value: string)
    requires IsField(line) && line[..ColonAt(line)] == key && line[ColonAt(line) + 1..] == value
    ensures FieldOf(line) == Some(FieldFrom(key, value))
  {
  }

  lemma ChompFieldParts(line: string, key: string, value: string)
    requires IsField(line) && IsField(Chomp(line))
    requires key == line[..ColonAt(line)] && value == line[ColonAt(line) + 1..]
    ensures FieldOf(line) == Some(FieldFrom(key, value)) && FieldOf(Chomp(line)) == Some(FieldFrom(key, Chomp(value)))
  {
    ChompColon(line);
    ChompBehind(line, ColonAt(line));
    FieldIs(line, key, value);
    FieldIs(Chomp(line), key, Chomp(value));
  }

  lemma ChompField(line: string)
    ensures FieldOf(Chomp(line)).Some? <==> FieldOf(line).Some?
    ensures FieldOf(line).Some? ==> FieldOf(Chomp(line)).value.scalar == FieldOf(line).value.scalar
  {
    ChompIsField(line);
    if IsField(line) {
      var key, value := line[..ColonAt(line)], line[ColonAt(line) + 1..];
      ChompFieldParts(line, key, value);
      ChompScalar(key, value);
    }
  }

  lemma ChompStart(value: string)
    ensures (Chomp(value) == "" || IsWhitespace(Chomp(value)[0])) <==> (value == "" || IsWhitespace(value[0]))
  {
  }

  lemma SeenAlike(invalid: YamlInvalid, inBody: bool, f: Option<Field>, g: Option<Field>)
    requires f.Some? <==> g.Some?
    requires f.Some? ==> f.value.scalar == g.value.scalar
    ensures var kind, other := KindIn(invalid, inBody, f), KindIn(invalid, inBody, g);
            kind == other || (kind.Unquoted? && other.Unquoted?)
  {
  }

  lemma ClassifyAlike(invalid: YamlInvalid, block: Option<nat>, line: string)
    ensures var kind, other := KindOf(invalid, block, line), KindOf(invalid, block, Chomp(line));
            kind == other || (kind.Unquoted? && other.Unquoted?)
  {
    var inBody := block.Some? && InBody(block.value, line);
    assert inBody == (block.Some? && InBody(block.value, Chomp(line))) by {
      ChompShape(line);
    }
    var f, g := FieldOf(line), FieldOf(Chomp(line));
    assert (f.Some? <==> g.Some?) && (f.Some? ==> f.value.scalar == g.value.scalar) by {
      ChompField(line);
    }
    SeenAlike(invalid, inBody, f, g);
  }

  lemma NextBlockAlike(kind: Kind, block: Option<nat>, line: string)
    ensures NextBlock(kind, block, Chomp(line)) == NextBlock(kind, block, line)
  {
    ChompShape(line);
  }

  /** The classification sees no more of a line than its indentation, blankness and scalar. */
  lemma ClassifyChompSafe(invalid: YamlInvalid, block: Option<nat>, line: string)
    ensures ChompSafe(Classify(invalid), block, line)
  {
    ClassifyAlike(invalid, block, line);
    NextBlockAlike(KindOf(invalid, block, line), block, line);
  }

  lemma {:induction false} RereadAt(lines: seq<string>, i: nat)
    ensures |Reread(lines)| <= |lines|
    ensures i < |Reread(lines)| ==> Reread(lines)[i] == lines[i] || Reread(lines)[i] == Chomp(lines[i])
  {
    if |lines| <= 1 {
    } else {
      RereadAt(lines[1..], if i > 0 then i - 1 else 0);
    }
  }

  lemma {:induction false} UnchangedUpTo(classify: Classifier, lines: seq<string>, n: nat, i: nat)
    requires i < n <= |lines| && !ScanUpTo(classify, lines, n).changed
    ensures !KindAt(classify, lines, i).Unquoted? && !ScanUpTo(classify, lines, i).changed
  {
    if i < n - 1 {
      UnchangedUpTo(classify, lines, n - 1, i);
    }
  }

  /** Lines that need no repair need none after being joined and split again. */
  lemma {:induction false} RereadScan(classify: Classifier, lines: seq<string>, n: nat)
    requires n <= |Reread(lines)| <= |lines| && !ScanAll(classify, lines).changed
    requires forall block, line :: ChompSafe(classify, block, line)
    ensures !ScanUpTo(classify, Reread(lines), n).changed
    ensures ScanUpTo(classify, Reread(lines), n).block == ScanUpTo(classify, lines, n).block
  {
    if n == 0 {
    } else {
      RereadScan(classify, lines, n - 1);
      RereadAt(lines, n - 1);
      UnchangedUpTo(classify, lines, |lines|, n - 1);
      assert ChompSafe(classify, ScanUpTo(classify, lines, n - 1).block, lines[n - 1]);
    }
  }

  /** `repair_frontmatter_scalar_fields`, on text. */
  function RepairText(invalid: YamlInvalid, text: string): Option<string> {
    var s := ScanAll(Classify(invalid), Lines(text));
    if s.changed then Some(Join(s.out)) else None
  }

  method RepairFrontmatter(invalid: YamlInvalid, text: string) returns (repaired: Option<string>)
    ensures repaired == RepairText(invalid, text)
  {
    var lines := Repair(invalid, Lines(text));
    repaired := if lines.None? then None else Some(Join(lines.value));
  }

  lemma {:induction false} DoubledKeepsOut(s: string, c: char)
    requires c !in s && c != '\''
    ensures c !in Doubled(s)
  {
    if s == [] {
    } else {
      DoubledKeepsOut(s[1..], c);
    }
  }

  lemma SliceKeepsOut(s: string, c: char, i: nat, j: nat)
    requires c !in s && i <= j <= |s|
    ensures c !in s[i..j]
  {
  }

  lemma FieldHasNoNewline(key: string, value: string)
    requires '\n' !in value
    ensures var f := FieldFrom(key, value);
            '\n' !in f.lead && '\n' !in f.scalar && '\n' !in f.comment
  {
    SliceKeepsOut(value, '\n', 0, Lead(value));
    SliceKeepsOut(value, '\n', Lead(value), |value|);
    var t := TrimStart(value);
    var hash := HashAt(t, 0);
    var end := Stop(t[..hash]);
    SliceKeepsOut(t, '\n', 0, end);
    SliceKeepsOut(t, '\n', end, |t|);
    assert t[..hash][..end] == t[..end];
  }

  lemma RenderedHasNoNewline(f: Field)
    requires '\n' !in f.key && '\n' !in f.lead && '\n' !in f.scalar && '\n' !in f.comment
    ensures '\n' !in Render(f, Quote(f.scalar))
  {
    DoubledKeepsOut(f.scalar, '\n');
  }

  lemma RepairedHasNoNewline(invalid: YamlInvalid, block: Option<nat>, line: string)
    requires '\n' !in line
    ensures '\n' !in RepairLine(KindOf(invalid, block, line), line)
  {
    if KindOf(invalid, block, line).Unquoted? {
      var c := ColonAt(line);
      SliceKeepsOut(line, '\n', 0, c);
      SliceKeepsOut(line, '\n', c + 1, |line|);
      FieldHasNoNewline(line[..c], line[c + 1..]);
      RenderedHasNoNewline(FieldOf(line).value);
    }
  }

  /** Repairing is idempotent on text as well: a repaired frontmatter has nothing left to repair. */
  lemma RepairTextIdempotent(invalid: YamlInvalid, text: string)
    requires RepairText(invalid, text).Some?
    ensures RepairText(invalid, RepairText(invalid, text).value).None?
  {
    var classify := Classify(invalid);
    var lines := Lines(text);
    var out := ScanAll(classify, lines).out;
    forall i | 0 <= i < |out|
      ensures '\n' !in out[i]
    {
      OutAt(classify, lines, |lines|, i);
      RepairedHasNoNewline(invalid, ScanUpTo(classify, lines, i).block, lines[i]);
    }
    LinesOfJoin(out);
    RepairIdempotent(invalid, lines);
    RereadAt(out, 0);
    forall block, line ensures ChompSafe(classify, block, line) {
      ClassifyChompSafe(invalid, block, line);
    }
    RereadScan(classify, out, |Reread(out)|);
  }

  // ---------------------------------------------------------------- splitting off the frontmatter

  predicate IsFence(line: string) {
    Trim(line) == "---"
  }

  /** The first fence at `from` or behind it; the number of lines if there is none. */
  function NextFence(lines: seq<string>, from: nat): (n: nat)
    requires from <= |lines|
    ensures from <= n <= |lines|
    ensures forall k :: from <= k < n ==> !IsFence(lines[k])
    ensures n < |lines| ==> IsFence(lines[n])
    decreases |lines| - from
  {
    if from == |lines| || IsFence(lines[from]) then from else NextFence(lines, from + 1)
  }

  /** The lines between the fence on the first line and the next fence, and the rest. */
  function SplitAtFences(lines: seq<string>): Option<(seq<string>, seq<string>)> {
    if lines == [] || !IsFence(lines[0]) || NextFence(lines, 1) == |lines| then None
    else Some((lines[1..NextFence(lines, 1)], lines[NextFence(lines, 1) + 1..]))
  }

  method SplitLines(lines: seq<string>) returns (parts: Option<(seq<string>, seq<string>)>)
    ensures parts == SplitAtFences(lines)
  {
    if lines == [] || !IsFence(lines[0]) {
      return None;
    }
    var frontmatterLines: seq<string> := [];
    var i := 1;
    while i < |lines|
      invariant 1 <= i <= |lines|
      invariant frontmatterLines == lines[1..i]
      invariant NextFence(lines, i) == NextFence(lines, 1)
    {
      if IsFence(lines[i]) {
        return Some((frontmatterLines, lines[i + 1..]));
      }
      assert lines[1..i + 1] == lines[1..i] + [lines[i]];
      frontmatterLines := frontmatterLines + [lines[i]];
      i := i + 1;
    }
    return None;
  }

  /** `split_frontmatter` */
  method SplitFrontmatter(text: string) returns (parts: Option<(string, string)>)
    ensures var split := SplitAtFences(Lines(text));
            parts == if split.None? then None else Some((Join(split.value.0), Join(split.value.1)))
  {
    var split := SplitLines(Lines(text));
    if split.None? {
      return None;
    }
    return Some((Join(split.value.0), Join(split.value.1)));
  }

  // ---------------------------------------------------------------- one-line fields

  /** How many leading characters are not whitespace. */
  function WordEnd(s: string): (n: nat)
    ensures n <= |s|
    ensures forall i :: 0 <= i < n ==> !IsWhitespace(s[i])
    ensures n < |s| ==> IsWhitespace(s[n])
  {
    if s == [] || IsWhitespace(s[0]) then 0 else 1 + WordEnd(s[1..])
  }

  /** `split_whitespace` */
  function Words(s: string): seq<string>
    decreases |s|
  {
    if s == [] then []
    else if IsWhitespace(s[0]) then Words(s[1..])
    else [s[..WordEnd(s)]] + Words(s[WordEnd(s)..])
  }

  function JoinWords(words: seq<string>): string {
    if words == [] then "" else if |words| == 1 then words[0] else words[0] + (" " + JoinWords(words[1..]))
  }

  /** `sanitize_single_line` */
  function SanitizeSingleLine(raw: string): string {
    JoinWords(Words(raw))
  }

  predicate AreWords(words: seq<string>) {
    forall i :: 0 <= i < |words| ==> words[i] != "" && WordEnd(words[i]) == |words[i]|
  }

  lemma {:induction false} WordsAreWords(s: string)
    ensures AreWords(Words(s))
    decreases |s|
  {
    if s == [] {
    } else {
      if IsWhitespace(s[0]) {
        WordsAreWords(s[1..]);
      } else {
        WordsAreWords(s[WordEnd(s)..]);
        WordEndUnique(s[..WordEnd(s)], "");
      }
    }
  }

  lemma WordEndUnique(word: string, rest: string)
    requires forall i :: 0 <= i < |word| ==> !IsWhitespace(word[i])
    requires rest == "" || IsWhitespace(rest[0])
    ensures WordEnd(word + rest) == |word| && WordEnd(word) == |word|
  {
    var s := word + rest;
    assert forall i :: 0 <= i < |word| ==> s[i] == word[i];
    assert rest != "" ==> s[|word|] == rest[0];
  }

  lemma {:induction false} WordsOfJoin(words: seq<string>)
    requires AreWords(words)
    ensures Words(JoinWords(words)) == words
    decreases |words|
  {
    if |words| == 1 {
      var word := words[0];
      assert word[..|word|] == word && word[|word|..] == "" && !IsWhitespace(word[0]);
      assert Words(word) == [word] + Words("");
    } else if |words| > 1 {
      var rest := " " + JoinWords(words[1..]);
      WordsOfJoin(words[1..]);
      WordEndUnique(words[0], rest);
      assert (words[0] + rest)[..|words[0]|] == words[0] && (words[0] + rest)[|words[0]|..] == rest;
      assert rest[1..] == JoinWords(words[1..]);
    }
  }

  /** A field shown on one line keeps its words, and showing it again changes nothing. */
  lemma SanitizeKeepsWords(raw: string)
    ensures Words(SanitizeSingleLine(raw)) == Words(raw)
    ensures SanitizeSingleLine(SanitizeSingleLine(raw)) == SanitizeSingleLine(raw)
  {
    WordsAreWords(raw);
    WordsOfJoin(Words(raw));
  }
}
