/** String operations the sources take from the Rust standard library, with the facts used about them. */
module Text {

  /** The Unicode White_Space property. */
  predicate IsWhitespace(c: char) {
    || '\t' <= c <= '\r'
    || c == ' '
    || c == '\U{85}' || c == '\U{A0}' || c == '\U{1680}'
    || '\U{2000}' <= c <= '\U{200A}'
    || c == '\U{2028}' || c == '\U{2029}' || c == '\U{202F}' || c == '\U{205F}' || c == '\U{3000}'
  }

  predicate Blank(s: string) {
    forall i :: 0 <= i < |s| ==> IsWhitespace(s[i])
  }

  /** How many leading characters are whitespace. */
  function Lead(s: string): (n: nat)
    ensures n <= |s|
    ensures forall i :: 0 <= i < n ==> IsWhitespace(s[i])
    ensures n < |s| ==> !IsWhitespace(s[n])
  {
    if s != [] && IsWhitespace(s[0]) then 1 + Lead(s[1..]) else 0
  }

  /** Where the trailing whitespace starts. */
  function Stop(s: string): (n: nat)
    ensures n <= |s|
    ensures forall i :: n <= i < |s| ==> IsWhitespace(s[i])
    ensures n > 0 ==> !IsWhitespace(s[n - 1])
  {
    if s != [] && IsWhitespace(s[|s| - 1]) then Stop(s[..|s| - 1]) else |s|
  }

  function TrimStart(s: string): string {
    s[Lead(s)..]
  }

  function TrimEnd(s: string): string {
    s[..Stop(s)]
  }

  function Trim(s: string): string {
    TrimEnd(TrimStart(s))
  }

  lemma LeadUnique(s: string, n: nat)
    requires n <= |s|
    requires forall i :: 0 <= i < n ==> IsWhitespace(s[i])
    requires n < |s| ==> !IsWhitespace(s[n])
    ensures Lead(s) == n
  {
  }

  lemma StopUnique(s: string, n: nat)
    requires n <= |s|
    requires forall i :: n <= i < |s| ==> IsWhitespace(s[i])
    requires n > 0 ==> !IsWhitespace(s[n - 1])
    ensures Stop(s) == n
  {
  }

  /** Trimming leaves nothing exactly of blank text. */
  lemma TrimEmpty(s: string)
    ensures Trim(s) == "" <==> Blank(s)
  {
    var t := TrimStart(s);
    if t == "" {
      assert Lead(s) == |s|;
    } else {
      assert !IsWhitespace(s[Lead(s)]) && t[0] == s[Lead(s)];
      assert Stop(t) > 0;
    }
  }

  /** Trimming takes blanks off both ends, and all there are. */
  lemma TrimExactly(s: string) returns (from: nat, to: nat)
    ensures from <= to <= |s| && Trim(s) == s[from..to]
    ensures forall i :: 0 <= i < |s| && (i < from || to <= i) ==> IsWhitespace(s[i])
    ensures from < to ==> !IsWhitespace(s[from]) && !IsWhitespace(s[to - 1])
  {
    from := Lead(s);
    var t := s[from..];
    to := from + Stop(t);
    assert t[..Stop(t)] == s[from..to];
    forall i | to <= i < |s|
      ensures IsWhitespace(s[i])
    {
      assert s[i] == t[i - from];
    }
    assert from < to ==> t[Stop(t) - 1] == s[to - 1];
  }

  function ToLowerChar(c: char): char {
    if 'A' <= c <= 'Z' then (c as int + 32) as char else c
  }

  /** `to_ascii_lowercase`. */
  function ToLower(s: string): (r: string)
    ensures |r| == |s|
    ensures forall i :: 0 <= i < |s| ==> r[i] == ToLowerChar(s[i])
  {
    seq(|s|, i requires 0 <= i < |s| => ToLowerChar(s[i]))
  }

  /** The same character, or the same ASCII letter in the other case. */
  predicate SameLetter(c: char, d: char) {
    || c == d
    || ('A' <= c <= 'Z' && d as int == c as int + ('a' as int - 'A' as int))
    || ('A' <= d <= 'Z' && c as int == d as int + ('a' as int - 'A' as int))
  }

  predicate SameButCase(s: string, t: string) {
    |s| == |t| && forall i :: 0 <= i < |s| ==> SameLetter(s[i], t[i])
  }

  lemma LowerExactly(s: string, t: string)
    ensures ToLower(s) == ToLower(t) <==> SameButCase(s, t)
  {
    if ToLower(s) == ToLower(t) {
      assert |ToLower(s)| == |s| && |ToLower(t)| == |t|;
      assert forall i :: 0 <= i < |s| ==> ToLower(s)[i] == ToLower(t)[i] == ToLowerChar(t[i]);
    }
  }

  predicate StartsWith(s: string, p: string) {
    |p| <= |s| && s[..|p|] == p
  }

  /** Lexicographic order by code point, which is the byte order of the UTF-8 forms. */
  predicate Less(a: string, b: string) {
    if b == [] then false
    else if a == [] then true
    else a[0] < b[0] || (a[0] == b[0] && Less(a[1..], b[1..]))
  }

  /** The lesser text is a proper prefix, or has the lesser character where they first differ. */
  lemma {:induction false} LessExactly(a: string, b: string)
    ensures Less(a, b) <==> exists n: nat :: DiffersAt(a, b, n)
  {
    if a != [] && b != [] && a[0] == b[0] {
      LessExactly(a[1..], b[1..]);
      if n: nat :| DiffersAt(a[1..], b[1..], n) {
        assert a[..n + 1] == [a[0]] + a[1..][..n] && b[..n + 1] == [b[0]] + b[1..][..n];
        assert DiffersAt(a, b, n + 1);
      }
      if n: nat :| DiffersAt(a, b, n) {
        assert n > 0;
        assert a[1..][..n - 1] == a[..n][1..] && b[1..][..n - 1] == b[..n][1..];
        assert DiffersAt(a[1..], b[1..], n - 1);
      }
    } else {
      assert DiffersAt(a, b, 0) <==> Less(a, b);
    }
  }

  /** Up to `n` they are the same, and there `a` is over or has the lesser character. */
  predicate DiffersAt(a: string, b: string, n: nat) {
    n <= |a| && n < |b| && a[..n] == b[..n] && (n == |a| || a[n] < b[n])
  }

  lemma {:induction false} LessTrans(a: string, b: string, c: string)
    requires Less(a, b) && Less(b, c)
    ensures Less(a, c)
  {
    if a != [] && a[0] == b[0] == c[0] {
      LessTrans(a[1..], b[1..], c[1..]);
    }
  }

  lemma {:induction false} LessTotal(a: string, b: string)
    ensures Less(a, b) || a == b || Less(b, a)
  {
    if a != [] && b != [] && a[0] == b[0] {
      LessTotal(a[1..], b[1..]);
      assert a == [a[0]] + a[1..] && b == [b[0]] + b[1..];
    }
  }

  lemma {:induction false} LessIrreflexive(a: string)
    ensures !Less(a, a)
  {
    if a == [] {
    } else {
      LessIrreflexive(a[1..]);
    }
  }
}
