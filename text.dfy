/**
 * The string primitives that both halves of the system lean on: JavaScript's
 * `trim` and regular-expression `\s`, Python's `strip` and `lower`.
 * The two runtimes disagree on what whitespace is, so every trimming
 * operation names the runtime whose notion it uses. Only ASCII characters
 * are classified, and lowercasing maps only 'A'..'Z'.
 */
module Text {

  /** Whose whitespace: the browser's (`trim`, `\s`) or Python's (`str.strip`, `str.isspace`). */
  datatype Runtime = JavaScript | Python

  /**
   * ASCII whitespace. Both runtimes count space, tab, line feed, carriage
   * return, vertical tab and form feed; Python also counts the four
   * information separators 0x1C..0x1F.
   */
  predicate IsSpace(rt: Runtime, c: char) {
    c == ' ' || c == '\t' || c == '\n' || c == '\r' || c == '\U{0B}' || c == '\U{0C}'
    || (rt == Python && '\U{1C}' <= c <= '\U{1F}')
  }

  predicate AllSpace(rt: Runtime, s: string) {
    forall k :: 0 <= k < |s| ==> IsSpace(rt, s[k])
  }

  /** Neither end of `s` is whitespace: what trimming leaves behind. */
  predicate Trimmed(rt: Runtime, s: string) {
    s == [] || (!IsSpace(rt, s[0]) && !IsSpace(rt, s[|s| - 1]))
  }

  function TrimStart(rt: Runtime, s: string): (r: string)
    ensures |r| <= |s| && r == s[|s| - |r|..]
    ensures AllSpace(rt, s[..|s| - |r|])
    ensures r == [] || !IsSpace(rt, r[0])
  {
    if s != [] && IsSpace(rt, s[0]) then TrimStart(rt, s[1..]) else s
  }

  function TrimEnd(rt: Runtime, s: string): (r: string)
    ensures |r| <= |s| && r == s[..|r|]
    ensures AllSpace(rt, s[|r|..])
    ensures r == [] || !IsSpace(rt, r[|r| - 1])
  {
    if s != [] && IsSpace(rt, s[|s| - 1]) then TrimEnd(rt, s[..|s| - 1]) else s
  }

  /** `s.trim()` / `s.strip()`: `s` without its leading and trailing whitespace. */
  function Trim(rt: Runtime, s: string): (r: string)
    ensures Trimmed(rt, r) && |r| <= |s|
  {
    TrimEnd(rt, TrimStart(rt, s))
  }

  /** What trimming removes is whitespace, from the two ends only. */
  lemma TrimIsSlice(rt: Runtime, s: string) returns (i: nat, j: nat)
    ensures i <= j <= |s| && Trim(rt, s) == s[i..j]
    ensures AllSpace(rt, s[..i]) && AllSpace(rt, s[j..])
  {
    var t := TrimStart(rt, s);
    var r := TrimEnd(rt, t);
    i, j := |s| - |t|, |s| - |t| + |r|;
    assert r == s[i..j];
    assert s[j..] == t[|r|..];
  }

  lemma {:induction false} TrimStartPadded(rt: Runtime, p: string, r: string)
    requires AllSpace(rt, p)
    requires r == [] || !IsSpace(rt, r[0])
    ensures TrimStart(rt, p + r) == r
    decreases |p|
  {
    if p == [] {
      assert p + r == r;
    } else {
      var pr := p + r;
      assert IsSpace(rt, pr[0]) by {
        assert pr[0] == p[0];
      }
      assert pr[1..] == p[1..] + r;
      TrimStartPadded(rt, p[1..], r);
      assert TrimStart(rt, pr) == TrimStart(rt, pr[1..]);
    }
  }

  lemma {:induction false} TrimEndPadded(rt: Runtime, r: string, q: string)
    requires AllSpace(rt, q)
    requires r == [] || !IsSpace(rt, r[|r| - 1])
    ensures TrimEnd(rt, r + q) == r
    decreases |q|
  {
    if q != [] {
      assert (r + q)[..|r + q| - 1] == r + q[..|q| - 1];
      TrimEndPadded(rt, r, q[..|q| - 1]);
    } else {
      assert r + q == r;
    }
  }

  /**
   * Trimming is determined by its result: whatever whitespace surrounds a
   * trimmed core, trimming gives back exactly that core.
   */
  lemma TrimPadded(rt: Runtime, p: string, u: string, q: string)
    requires AllSpace(rt, p) && AllSpace(rt, q) && Trimmed(rt, u)
    ensures Trim(rt, p + u + q) == u
  {
    if u == [] {
      assert p + u + q == (p + q) + [];
      TrimStartPadded(rt, p + q, []);
    } else {
      assert p + u + q == p + (u + q);
      TrimStartPadded(rt, p, u + q);
      TrimEndPadded(rt, u, q);
    }
  }

  lemma TrimIdempotent(rt: Runtime, s: string)
    ensures Trim(rt, Trim(rt, s)) == Trim(rt, s)
  {
    var t := Trim(rt, s);
    assert [] + t + [] == t;
    TrimPadded(rt, [], t, []);
  }

  /** The upper-case letter 'A'..'Z'. */
  predicate IsUpper(c: char) {
    'A' <= c <= 'Z'
  }

  /** One character lowercased: an upper-case letter becomes the lower-case letter at the same place in the alphabet. */
  function LowerChar(c: char): (d: char)
    ensures !IsUpper(d)
    ensures d == c || (IsUpper(c) && 'a' <= d <= 'z' && d as int - 'a' as int == c as int - 'A' as int)
  {
    if IsUpper(c) then (c as int + 32) as char else c
  }

  /** No ASCII upper-case letter occurs in `s`. */
  predicate NoUpper(s: string) {
    forall k :: 0 <= k < |s| ==> !IsUpper(s[k])
  }

  /**
   * `s.lower()` over ASCII. The result has no upper-case letter, only the
   * upper-case letters of `s` change, each into the lower-case letter at the
   * same place in the alphabet, and a string without one is left as it is.
   */
  function Lower(s: string): (r: string)
    ensures |r| == |s| && NoUpper(r)
    ensures forall k :: 0 <= k < |s| ==> r[k] == s[k] || IsUpper(s[k])
    ensures forall k :: 0 <= k < |s| && IsUpper(s[k]) ==>
      'a' <= r[k] <= 'z' && r[k] as int - 'a' as int == s[k] as int - 'A' as int
    ensures NoUpper(s) ==> r == s
  {
    seq(|s|, k requires 0 <= k < |s| => LowerChar(s[k]))
  }

  lemma LowerConcat(a: string, b: string)
    ensures Lower(a + b) == Lower(a) + Lower(b)
  {
  }

  /** Lowercasing never turns a non-space into a space or back. */
  lemma LowerKeepsSpaces(rt: Runtime, s: string)
    ensures AllSpace(rt, s) ==> AllSpace(rt, Lower(s))
    ensures Trimmed(rt, s) <==> Trimmed(rt, Lower(s))
  {
    if s != [] {
      assert IsSpace(rt, Lower(s)[0]) <==> IsSpace(rt, s[0]);
      assert IsSpace(rt, Lower(s)[|s| - 1]) <==> IsSpace(rt, s[|s| - 1]);
    }
  }

  /** Lowercasing a padded core pads the lowercased core with whitespace. */
  lemma LowerPadded(rt: Runtime, p: string, u: string, q: string)
    requires AllSpace(rt, p) && AllSpace(rt, q) && Trimmed(rt, u)
    ensures Lower(p + u + q) == Lower(p) + Lower(u) + Lower(q)
    ensures AllSpace(rt, Lower(p)) && AllSpace(rt, Lower(q)) && Trimmed(rt, Lower(u))
  {
    LowerConcat(p + u, q);
    LowerConcat(p, u);
    LowerKeepsSpaces(rt, p);
    LowerKeepsSpaces(rt, u);
    LowerKeepsSpaces(rt, q);
  }

  /** Trimming and lowercasing commute, so `strip().lower()` may be read either way round. */
  lemma TrimLowerCommute(rt: Runtime, s: string)
    ensures Trim(rt, Lower(s)) == Lower(Trim(rt, s))
  {
    var i, j := TrimIsSlice(rt, s);
    TrimLowerSplit(rt, s, i, j);
  }

  lemma TrimLowerSplit(rt: Runtime, s: string, i: nat, j: nat)
    requires i <= j <= |s| && AllSpace(rt, s[..i]) && AllSpace(rt, s[j..]) && Trimmed(rt, s[i..j])
    ensures Trim(rt, Lower(s)) == Lower(s[i..j])
  {
    var p, u, q := s[..i], s[i..j], s[j..];
    assert s == p + u + q;
    TrimLowerPadded(rt, p, u, q);
  }

  lemma TrimLowerPadded(rt: Runtime, p: string, u: string, q: string)
    requires AllSpace(rt, p) && AllSpace(rt, q) && Trimmed(rt, u)
    ensures Trim(rt, Lower(p + u + q)) == Lower(u)
  {
    LowerPadded(rt, p, u, q);
    TrimPadded(rt, Lower(p), Lower(u), Lower(q));
  }
}
