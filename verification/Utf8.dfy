/** Cutting UTF-8 text to a byte cap without cutting a character: `truncate_chars`, its mirror in
    `read_transcript`, and the truncation flag of `finish`. */
module Utf8 {
  import Text

  newtype byte = x: int | 0 <= x < 0x100

  type Bytes = seq<byte>

  /** UTF8-tail in section 4 of RFC 3629. */
  predicate IsTail(b: byte) {
    0x80 <= b <= 0xBF
  }

  /** How many bytes the character at the front takes, by the grammar in section 4 of RFC 3629; 0 if the
      text does not start with a character. */
  function Width(s: Bytes): (n: nat)
    ensures n <= |s| && n <= 4
    ensures n > 0 ==> !IsTail(s[0])
    ensures forall i :: 0 < i < n ==> IsTail(s[i])
  {
    if s == [] then 0
    else if s[0] <= 0x7F then 1
    else if 0xC2 <= s[0] <= 0xDF then
      if |s| >= 2 && IsTail(s[1]) then 2 else 0
    else if 0xE0 <= s[0] <= 0xEF then
      if |s| >= 3 && IsTail(s[1]) && IsTail(s[2]) && (s[0] == 0xE0 ==> s[1] >= 0xA0) && (s[0] == 0xED ==> s[1] <= 0x9F)
      then 3 else 0
    else if 0xF0 <= s[0] <= 0xF4 then
      if |s| >= 4 && IsTail(s[1]) && IsTail(s[2]) && IsTail(s[3]) && (s[0] == 0xF0 ==> s[1] >= 0x90) && (s[0] == 0xF4 ==> s[1] <= 0x8F)
      then 4 else 0
    else 0
  }

  /** The text is a sequence of characters. */
  predicate Valid(s: Bytes) {
    s == [] || (Width(s) > 0 && Valid(s[Width(s)..]))
  }

  /** `is_char_boundary` */
  predicate IsBoundary(s: Bytes, i: nat) {
    i == 0 || i == |s| || (i < |s| && !IsTail(s[i]))
  }

  /** The front character depends on its own bytes only, and needs all of them. */
  lemma WidthOfPrefix(s: Bytes, i: nat)
    requires Width(s) > 0 && i <= |s|
    ensures Width(s[..i]) == if Width(s) <= i then Width(s) else 0
  {
  }

  /** In a valid text the boundaries are exactly the places where it can be cut into valid texts. */
  lemma {:induction false} BoundaryCuts(s: Bytes, i: nat)
    requires Valid(s) && i <= |s|
    ensures IsBoundary(s, i) <==> Valid(s[..i])
    ensures IsBoundary(s, i) <==> Valid(s[i..])
    decreases |s|
  {
    if i == 0 {
      assert s[0..] == s;
    } else {
      var w := Width(s);
      WidthOfPrefix(s, i);
      if w <= i {
        BoundaryCuts(s[w..], i - w);
        assert s[..i][w..] == s[w..][..i - w];
        assert s[w..][i - w..] == s[i..];
      } else {
        assert s[i..][0] == s[i];
      }
    }
  }

  /** A boundary is never more than three bytes away, on either side. */
  lemma {:induction false} BoundaryNear(s: Bytes, i: nat) returns (lo: nat, hi: nat)
    requires Valid(s) && i <= |s|
    ensures lo <= i <= hi <= |s| && i <= lo + 3 && hi <= i + 3
    ensures IsBoundary(s, lo) && IsBoundary(s, hi)
    decreases |s|
  {
    var w := Width(s);
    if i == 0 {
      lo, hi := 0, 0;
    } else if w <= i {
      lo, hi := BoundaryNear(s[w..], i - w);
      BoundaryCuts(s[w..], lo);
      BoundaryCuts(s[w..], hi);
      BoundaryShift(s, lo);
      BoundaryShift(s, hi);
      lo, hi := lo + w, hi + w;
    } else {
      lo, hi := 0, w;
      BoundaryShift(s, 0);
    }
  }

  lemma BoundaryShift(s: Bytes, i: nat)
    requires Valid(s) && s != [] && i <= |s| - Width(s) && IsBoundary(s[Width(s)..], i)
    ensures IsBoundary(s, i + Width(s))
  {
    var w := Width(s);
    var rest := s[w..];
    if i < |rest| {
      assert rest[i] == s[i + w];
      assert i == 0 ==> Width(rest) > 0;
    }
  }

  /** The longest valid prefix of `s` within `cap` bytes. */
  predicate IsLongestPrefix(r: Bytes, s: Bytes, cap: nat) {
    && r <= s && |r| <= cap && Valid(r)
    && (forall n :: |r| < n <= |s| && n <= cap ==> !Valid(s[..n]))
  }

  /** The longest valid suffix of `s` within `cap` bytes. */
  predicate IsLongestSuffix(r: Bytes, s: Bytes, cap: nat) {
    && |r| <= |s| && s[|s| - |r|..] == r && |r| <= cap && Valid(r)
    && (forall k :: 0 <= k < |s| - |r| && |s| - k <= cap ==> !Valid(s[k..]))
  }

  /** `truncate_chars` */
  method TruncateChars(s: Bytes, cap: nat) returns (r: Bytes)
    requires Valid(s)
    ensures IsLongestPrefix(r, s, cap)
    ensures |s| <= cap ==> r == s
    ensures |s| > cap ==> |r| + 3 >= cap
  {
    if |s| <= cap {
      return s;
    }
    ghost var lo, hi := BoundaryNear(s, cap);
    var end := cap;
    while end > 0 && !IsBoundary(s, end)
      invariant lo <= end <= cap
      invariant forall n :: end < n <= cap ==> !IsBoundary(s, n)
    {
      end := end - 1;
    }
    r := s[..end];
    forall n | end <= n <= cap
      ensures Valid(s[..n]) <==> n == end
    {
      BoundaryCuts(s, n);
    }
  }

  /** The cut of `read_transcript`, for a cap of `cap` bytes. */
  method TruncateFront(s: Bytes, cap: nat) returns (r: Bytes)
    requires Valid(s)
    ensures IsLongestSuffix(r, s, cap)
    ensures |s| <= cap ==> r == s
    ensures |s| > cap ==> |r| + 3 >= cap
  {
    if |s| <= cap {
      assert s[0..] == s;
      return s;
    }
    var from := |s| - cap;
    ghost var lo, hi := BoundaryNear(s, from);
    var start := from;
    while start < |s| && !IsBoundary(s, start)
      invariant from <= start <= hi
      invariant forall n :: from <= n < start ==> !IsBoundary(s, n)
    {
      start := start + 1;
    }
    r := s[start..];
    forall k | from <= k <= start
      ensures Valid(s[k..]) <==> k == start
    {
      BoundaryCuts(s, k);
    }
  }

  const TRANSCRIPT_CAP := 24 * 1024
  const MAX_SKILL_BODY_BYTES := 64 * 1024

  /** `read_transcript`, given what the file holds; a file that cannot be read counts as empty. */
  method ReadTranscript(readable: bool, text: Bytes) returns (r: Bytes)
    requires Valid(text)
    ensures if readable then IsLongestSuffix(r, text, TRANSCRIPT_CAP) else r == []
  {
    if !readable {
      return [];
    }
    r := TruncateFront(text, TRANSCRIPT_CAP);
  }

  datatype Activation = Activation(id: string, version: string, path: string, body: Bytes, truncated: bool)

  /** `finish`: the flag is up exactly when something was cut off, and a blank version reads as 0. */
  method Finish(id: string, version: string, path: string, body: Bytes) returns (a: Activation)
    requires Valid(body)
    ensures a.id == id && a.path == path
    ensures if Text.Blank(version) then a.version == "0" else a.version == Text.Trim(version)
    ensures IsLongestPrefix(a.body, body, MAX_SKILL_BODY_BYTES)
    ensures a.truncated <==> |body| > MAX_SKILL_BODY_BYTES
    ensures a.truncated <==> a.body != body
  {
    Text.TrimEmpty(version);
    var trimmed := Text.Trim(version);
    var truncated := |body| > MAX_SKILL_BODY_BYTES;
    var kept := body;
    if truncated {
      kept := TruncateChars(body, MAX_SKILL_BODY_BYTES);
    }
    a := Activation(id, if trimmed == "" then "0" else trimmed, path, kept, truncated);
  }
}
