/**
 * String operations the two halves of the system rely on: trimming whitespace
 * (JavaScript `String.prototype.trim` and Python `str.strip`, which disagree on
 * what whitespace is), the UTF-16 length JavaScript reports, substring search
 * and Python's normalisation of slice bounds.
 */
module Text {

  /** Every character of `s` satisfies `ws`. */
  predicate AllIn(s: string, ws: char -> bool)
  {
    forall i :: 0 <= i < |s| ==> ws(s[i])
  }

  /** Neither end of `s` is a `ws` character: what a trim leaves behind. */
  predicate Trimmed(s: string, ws: char -> bool)
  {
    s == [] || (!ws(s[0]) && !ws(s[|s| - 1]))
  }

  /**
   * Whitespace for ECMAScript's `trim`: the WhiteSpace production (TAB, VT, FF,
   * SPACE, NBSP, ZWNBSP and every other Zs character) and the LineTerminator
   * production (LF, CR, LS, PS).
   */
  function JsWhitespace(c: char): (w: bool)
    ensures c as int < 0x80 ==> (w <==> c as int in {9, 10, 11, 12, 13, 0x20})
    ensures w ==> c as int <= 0xFEFF
  {
    var n := c as int;
    (9 <= n <= 13) || n == 0x20 || n == 0xA0 || n == 0x1680 || (0x2000 <= n <= 0x200A)
    || n == 0x2028 || n == 0x2029 || n == 0x202F || n == 0x205F || n == 0x3000 || n == 0xFEFF
  }

  /**
   * Whitespace for Python 3's `str.isspace`, which `str.strip()` removes: the
   * characters whose bidirectional class is WS, B or S, or whose category is Zs.
   * Unlike JavaScript it includes the separators U+001C..U+001F and NEL (U+0085),
   * and excludes ZWNBSP (U+FEFF).
   */
  function PyWhitespace(c: char): (w: bool)
    ensures c as int < 0x80 ==> (w <==> c as int in {9, 10, 11, 12, 13, 0x1C, 0x1D, 0x1E, 0x1F, 0x20})
    ensures w ==> c as int <= 0x3000
  {
    var n := c as int;
    (9 <= n <= 13) || (0x1C <= n <= 0x20) || n == 0x85 || n == 0xA0 || n == 0x1680
    || (0x2000 <= n <= 0x200A) || n == 0x2028 || n == 0x2029 || n == 0x202F || n == 0x205F
    || n == 0x3000
  }

  /** The length of the run of `ws` characters at the front of `s`. */
  function LeadingRun(s: string, ws: char -> bool): (k: nat)
    ensures k <= |s|
    ensures forall i :: 0 <= i < k ==> ws(s[i])
    ensures k < |s| ==> !ws(s[k])
  {
    if s != [] && ws(s[0]) then
      var k := LeadingRun(s[1..], ws);
      assert forall i :: 1 <= i <= k && i < |s| ==> s[i] == s[1..][i - 1];
      1 + k
    else
      0
  }

  /** Where the run of `ws` characters at the end of `s` begins. */
  function TrailingFrom(s: string, ws: char -> bool): (k: nat)
    ensures k <= |s|
    ensures forall i :: k <= i < |s| ==> ws(s[i])
    ensures 0 < k ==> !ws(s[k - 1])
  {
    if s != [] && ws(s[|s| - 1]) then TrailingFrom(s[..|s| - 1], ws) else |s|
  }

  /** LeadingRun is pinned down by its two properties. */
  lemma LeadingRunIs(s: string, n: nat, ws: char -> bool)
    requires n <= |s| && (forall i :: 0 <= i < n ==> ws(s[i])) && (n < |s| ==> !ws(s[n]))
    ensures LeadingRun(s, ws) == n
  {
  }

  /** TrailingFrom is pinned down by its two properties. */
  lemma TrailingFromIs(s: string, n: nat, ws: char -> bool)
    requires n <= |s| && (forall i :: n <= i < |s| ==> ws(s[i])) && (0 < n ==> !ws(s[n - 1]))
    ensures TrailingFrom(s, ws) == n
  {
  }

  /**
   * Removes whitespace at both ends. The result is a window of `s` with only
   * whitespace outside it, and it is empty exactly when `s` is all whitespace.
   */
  function Strip(s: string, ws: char -> bool): (r: string)
    ensures |r| <= |s|
    ensures Trimmed(r, ws)
    ensures var k := LeadingRun(s, ws);
            k + |r| <= |s| && r == s[k..k + |r|] && AllIn(s[..k], ws) && AllIn(s[k + |r|..], ws)
    ensures r == [] <==> AllIn(s, ws)
  {
    var a := LeadingRun(s, ws);
    if a == |s| then
      []
    else
      var b := TrailingFrom(s, ws);
      assert a < b;
      s[a..b]
  }

  /** JavaScript's `s.trim()`. */
  function JsTrim(s: string): (r: string)
    ensures |r| <= |s| && Trimmed(r, JsWhitespace)
    ensures var k := LeadingRun(s, JsWhitespace);
            k + |r| <= |s| && r == s[k..k + |r|] && AllIn(s[..k], JsWhitespace) && AllIn(s[k + |r|..], JsWhitespace)
    ensures r == [] <==> AllIn(s, JsWhitespace)
  {
    Strip(s, JsWhitespace)
  }

  /** Python's `s.strip()` with no argument. */
  function PyStrip(s: string): (r: string)
    ensures |r| <= |s| && Trimmed(r, PyWhitespace)
    ensures var k := LeadingRun(s, PyWhitespace);
            k + |r| <= |s| && r == s[k..k + |r|] && AllIn(s[..k], PyWhitespace) && AllIn(s[k + |r|..], PyWhitespace)
    ensures r == [] <==> AllIn(s, PyWhitespace)
  {
    Strip(s, PyWhitespace)
  }

  /**
   * The two whitespace sets differ in exactly six characters: the information
   * separators U+001C..U+001F and NEL (U+0085) only for Python, ZWNBSP (U+FEFF)
   * only for JavaScript.
   */
  lemma WhitespaceSetsDiffer(c: char)
    ensures JsWhitespace(c) != PyWhitespace(c) <==> c as int in {0x1C, 0x1D, 0x1E, 0x1F, 0x85, 0xFEFF}
    ensures JsWhitespace(c) && !PyWhitespace(c) <==> c as int == 0xFEFF
  {
  }

  /** So the two trims disagree: Python strips a leading U+001C, JavaScript keeps it. */
  lemma TrimsDisagree()
    ensures PyStrip("\U{001C}x") == "x"
    ensures JsTrim("\U{001C}x") == "\U{001C}x"
  {
    var s := "\U{001C}x";
    LeadingRunIs(s, 1, PyWhitespace);
    TrailingFromIs(s, 2, PyWhitespace);
    LeadingRunIs(s, 0, JsWhitespace);
    TrailingFromIs(s, 2, JsWhitespace);
  }

  /**
   * Stripping is characterised by its window: whatever whitespace `a` and `b`
   * surround a string `x` that is already trimmed, Strip gives back `x`.
   */
  lemma StripFrame(a: string, x: string, b: string, ws: char -> bool)
    requires AllIn(a, ws) && AllIn(b, ws) && Trimmed(x, ws)
    ensures Strip(a + x + b, ws) == x
  {
    var s := a + x + b;
    assert forall i :: 0 <= i < |a| ==> s[i] == a[i];
    assert forall i :: |a| + |x| <= i < |s| ==> s[i] == b[i - |a| - |x|];
    if x == [] {
      assert AllIn(s, ws);
    } else {
      assert s[|a|] == x[0] && s[|a| + |x| - 1] == x[|x| - 1];
      LeadingRunIs(s, |a|, ws);
      TrailingFromIs(s, |a| + |x|, ws);
      assert s[|a|..|a| + |x|] == x;
    }
  }

  /** A prefix that starts and ends with non-whitespace survives stripping. */
  lemma StripKeepsPrefix(s: string, p: string, ws: char -> bool)
    requires p != [] && p <= s && !ws(p[0]) && !ws(p[|p| - 1])
    ensures p <= Strip(s, ws)
  {
    assert s[0] == p[0] && s[|p| - 1] == p[|p| - 1];
    LeadingRunIs(s, 0, ws);
    var t := TrailingFrom(s, ws);
    assert |p| <= t;
    assert Strip(s, ws) == s[..t];
  }

  /** Stripping twice is stripping once. */
  lemma StripIdempotent(s: string, ws: char -> bool)
    ensures Strip(Strip(s, ws), ws) == Strip(s, ws)
  {
    var r := Strip(s, ws);
    assert [] + r + [] == r;
    StripFrame([], r, [], ws);
  }

  /**
   * The number of UTF-16 code units of `s`, which is what JavaScript's
   * `length` counts: a character outside the Basic Multilingual Plane takes two.
   */
  function Utf16Length(s: string): (n: nat)
    ensures |s| <= n <= 2 * |s|
    ensures n == |s| <==> forall i :: 0 <= i < |s| ==> s[i] as int < 0x10000
  {
    if s == [] then 0
    else
      var rest := Utf16Length(s[1..]);
      assert forall i :: 1 <= i < |s| ==> s[i] == s[1..][i - 1];
      (if s[0] as int < 0x10000 then 1 else 2) + rest
  }

  /** Code-unit length adds up over concatenation. */
  lemma {:induction false} Utf16LengthAppend(s: string, t: string)
    ensures Utf16Length(s + t) == Utf16Length(s) + Utf16Length(t)
  {
    if s != [] {
      assert (s + t)[1..] == s[1..] + t;
      Utf16LengthAppend(s[1..], t);
    } else {
      assert s + t == t;
    }
  }

  /** `p` occurs in `s` at some position: Python's `p in s` for strings. */
  function Contains(s: string, p: string): (c: bool)
    ensures p <= s ==> c
    ensures |s| < |p| ==> !c
  {
    p <= s || (s != [] && Contains(s[1..], p))
  }

  /** `p` occurs in `s` starting at position `i`. */
  predicate OccursAt(s: string, p: string, i: nat)
  {
    i + |p| <= |s| && s[i..i + |p|] == p
  }

  /** An occurrence of `p` at some position of `s` makes `Contains` true. */
  lemma {:induction false} ContainsAt(s: string, p: string, i: nat)
    requires OccursAt(s, p, i)
    ensures Contains(s, p)
  {
    if i > 0 {
      assert s[1..][i - 1..i - 1 + |p|] == s[i..i + |p|];
      ContainsAt(s[1..], p, i - 1);
    }
  }

  /** Conversely, `Contains` is only true where `p` occurs at some position: the two say the same thing. */
  lemma {:induction false} ContainsWitness(s: string, p: string)
    requires Contains(s, p)
    ensures exists i: nat :: OccursAt(s, p, i)
  {
    if p <= s {
      assert OccursAt(s, p, 0);
    } else {
      ContainsWitness(s[1..], p);
      var j: nat :| OccursAt(s[1..], p, j);
      assert s[1..][j..j + |p|] == s[j + 1..j + 1 + |p|];
      assert OccursAt(s, p, j + 1);
    }
  }

  /**
   * Python's normalisation of a slice bound `i` against a length `n`: a negative
   * bound counts from the end, and the result is clamped to 0..n.
   */
  function SliceBound(i: int, n: nat): (k: nat)
    ensures k <= n
    ensures 0 <= i <= n ==> k == i
    ensures i < 0 && 0 <= i + n ==> k == i + n
    ensures i + n < 0 ==> k == 0
    ensures n < i ==> k == n
  {
    if i < 0 then (if i + n < 0 then 0 else i + n)
    else if i > n then n
    else i
  }

  /** Python's `s[start:stop]` (step 1): empty when the normalised start is not before the normalised stop. */
  function PySlice(s: string, start: int, stop: int): (r: string)
    ensures |r| <= |s|
    ensures |r| == if SliceBound(start, |s|) < SliceBound(stop, |s|) then SliceBound(stop, |s|) - SliceBound(start, |s|) else 0
    ensures forall i :: 0 <= i < |r| ==> SliceBound(start, |s|) + i < |s| && r[i] == s[SliceBound(start, |s|) + i]
  {
    var lo, hi := SliceBound(start, |s|), SliceBound(stop, |s|);
    if lo < hi then s[lo..hi] else []
  }

  /**
   * The slice `s[k:-3]` that removes a `k`-character opening fence and a
   * three-character closing fence: the middle when there is room for both,
   * and empty otherwise.
   */
  lemma SliceBetweenFences(s: string, k: nat)
    ensures PySlice(s, k, -3) == if k + 3 <= |s| then s[k..|s| - 3] else []
  {
  }
}
