/** Where block scalars begin and end, told from the shape of the lines alone: a scanner that goes line by
    line, against the lines a block scalar covers. */
module BlockScalars {
  import opened Wrappers

  /** A line is blank or not, starts with so many spaces, and may open a block scalar. */
  datatype Shape = Shape(blank: bool, indent: nat, opens: bool)

  /** A line inside the block scalar whose header is indented by `block`. */
  predicate Inside(block: nat, line: Shape) {
    line.blank || line.indent > block
  }

  function BlockBehind(block: Option<nat>, line: Shape): Option<nat> {
    if block.Some? && Inside(block.value, line) then block
    else if line.opens then Some(line.indent)
    else None
  }

  /** The block scalar the scanner is in behind `n` lines, by the indentation of its header. */
  function BlockAfter(lines: seq<Shape>, n: nat): Option<nat>
    requires n <= |lines|
  {
    if n == 0 then None else BlockBehind(BlockAfter(lines, n - 1), lines[n - 1])
  }

  /** Line `h` opens a block scalar that reaches to line `i`: all lines behind it are blank or indented deeper. */
  predicate Covers(lines: seq<Shape>, h: nat, i: nat)
    requires h <= i < |lines|
  {
    lines[h].opens && forall k :: h < k <= i ==> lines[k].blank || lines[k].indent > lines[h].indent
  }

  predicate InBlock(lines: seq<Shape>, i: nat)
    requires i < |lines|
  {
    exists h :: 0 <= h < i && Covers(lines, h, i)
  }

  /** The scanner is in a block scalar only behind a line that opens one, with lines of its body in between. */
  lemma {:induction false} BlockHasHeader(lines: seq<Shape>, n: nat) returns (h: nat)
    requires n <= |lines| && BlockAfter(lines, n).Some?
    ensures h < n && Covers(lines, h, n - 1) && BlockAfter(lines, n) == Some(lines[h].indent)
  {
    var block := BlockAfter(lines, n - 1);
    if block.Some? && Inside(block.value, lines[n - 1]) {
      h := BlockHasHeader(lines, n - 1);
    } else {
      h := n - 1;
    }
  }

  /** Behind a line that opens a block scalar, over the lines of its body, the scanner is in a block scalar:
      that one, or one around it. */
  lemma {:induction false} HeaderHolds(lines: seq<Shape>, h: nat, n: nat)
    requires h < n <= |lines| && Covers(lines, h, n - 1) && !lines[h].blank
    ensures BlockAfter(lines, n).Some? && BlockAfter(lines, n).value <= lines[h].indent
  {
    if n > h + 1 {
      HeaderHolds(lines, h, n - 1);
    }
  }

  /** The scanner passes over exactly the lines inside a block scalar. */
  lemma InsideExactly(lines: seq<Shape>, i: nat)
    requires i < |lines| && forall k :: 0 <= k < |lines| && lines[k].opens ==> !lines[k].blank
    ensures BlockAfter(lines, i).Some? && Inside(BlockAfter(lines, i).value, lines[i]) <==> InBlock(lines, i)
  {
    if BlockAfter(lines, i).Some? && Inside(BlockAfter(lines, i).value, lines[i]) {
      var h := BlockHasHeader(lines, i);
      assert Covers(lines, h, i);
    }
    if h :| 0 <= h < i && Covers(lines, h, i) {
      HeaderHolds(lines, h, i);
    }
  }
}
