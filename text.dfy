/**
 * The JavaScript string operations the application relies on:
 * `trim`, `toLowerCase` (ASCII letters only), `includes`, global
 * `replace` of a literal pattern by the empty string, `Array.join`,
 * and the decimal rendering of a non-negative integer in a template
 * string.
 */
module Text {

  /** The characters `String.prototype.trim` removes: ECMAScript
    * WhiteSpace (TAB, VT, FF, SP, NBSP, ZWNBSP and the Zs category)
    * and LineTerminator (LF, CR, LS, PS). */
  predicate IsSpace(c: char) {
    || c == '\t' || c == '\n' || c == '\U{B}' || c == '\U{C}' || c == '\r' || c == ' '
    || c == '\U{A0}' || c == '\U{1680}' || ('\U{2000}' <= c <= '\U{200A}')
    || c == '\U{2028}' || c == '\U{2029}' || c == '\U{202F}' || c == '\U{205F}'
    || c == '\U{3000}' || c == '\U{FEFF}'
  }

  predicate IsUpper(c: char) { 'A' <= c <= 'Z' }

  /** No surrounding whitespace. */
  predicate Trimmed(s: string) {
    s == [] || (!IsSpace(s[0]) && !IsSpace(s[|s| - 1]))
  }

  predicate AllSpace(s: string) {
    forall i :: 0 <= i < |s| ==> IsSpace(s[i])
  }

  predicate NoUpper(s: string) {
    forall i :: 0 <= i < |s| ==> !IsUpper(s[i])
  }

  /** The first index at or after `i` that does not hold whitespace. */
  function SkipLeading(s: string, i: nat): (k: nat)
    requires i <= |s|
    ensures i <= k <= |s|
    ensures forall m :: i <= m < k ==> IsSpace(s[m])
    ensures k < |s| ==> !IsSpace(s[k])
    decreases |s| - i
  {
    if i < |s| && IsSpace(s[i]) then SkipLeading(s, i + 1) else i
  }

  /** The least index `k >= lo` such that `s[k..j]` is all whitespace. */
  function SkipTrailing(s: string, lo: nat, j: nat): (k: nat)
    requires lo <= j <= |s|
    ensures lo <= k <= j
    ensures forall m :: k <= m < j ==> IsSpace(s[m])
    ensures k > lo ==> !IsSpace(s[k - 1])
    decreases j
  {
    if j > lo && IsSpace(s[j - 1]) then SkipTrailing(s, lo, j - 1) else j
  }

  /** `s.trim()`: the slice of `s` between its leading and its trailing
    * whitespace. */
  function Trim(s: string): (r: string)
    ensures Trimmed(r)
    ensures |r| <= |s|
    ensures exists i, j :: 0 <= i <= j <= |s| && r == s[i..j] && AllSpace(s[..i]) && AllSpace(s[j..])
  {
    var i := SkipLeading(s, 0);
    var j := SkipTrailing(s, i, |s|);
    assert AllSpace(s[..i]) by {
      forall m | 0 <= m < i ensures IsSpace(s[..i][m]) {
        assert s[..i][m] == s[m];
      }
    }
    assert AllSpace(s[j..]) by {
      forall m | 0 <= m < |s| - j ensures IsSpace(s[j..][m]) {
        assert s[j..][m] == s[j + m];
      }
    }
    s[i..j]
  }

  /** The trim is the only slice with no surrounding whitespace that leaves
    * only whitespace before and after it: `trim` removes the surrounding
    * whitespace and nothing else. */
  lemma TrimUnique(s: string, i: int, j: int)
    requires 0 <= i <= j <= |s|
    requires AllSpace(s[..i]) && AllSpace(s[j..]) && Trimmed(s[i..j])
    ensures Trim(s) == s[i..j]
  {
    forall m | 0 <= m < i ensures IsSpace(s[m]) {
      assert s[..i][m] == s[m];
    }
    forall m | j <= m < |s| ensures IsSpace(s[m]) {
      assert s[j..][m - j] == s[m];
    }
    if i < j {
      assert s[i..j][0] == s[i] && s[i..j][j - i - 1] == s[j - 1];
    }
    TrimAt(s, i, j);
  }

  /** `s[i..j]` has no surrounding whitespace and only whitespace lies
    * outside it. */
  predicate TrimBounds(s: string, i: int, j: int) {
    && 0 <= i <= j <= |s|
    && (forall m :: 0 <= m < i ==> IsSpace(s[m]))
    && (forall m :: j <= m < |s| ==> IsSpace(s[m]))
    && (i < j ==> !IsSpace(s[i]) && !IsSpace(s[j - 1]))
  }

  lemma TrimAt(s: string, i: int, j: int)
    requires TrimBounds(s, i, j)
    ensures Trim(s) == s[i..j]
  {
    var a := SkipLeading(s, 0);
    if i == j {
      assert a == |s|;
    } else {
      assert a == i;
      assert SkipTrailing(s, a, |s|) == j;
    }
  }

  /** The bounds `Trim` uses. */
  lemma TrimBoundsOfTrim(s: string) returns (i: int, j: int)
    ensures TrimBounds(s, i, j) && Trim(s) == s[i..j]
  {
    i := SkipLeading(s, 0);
    j := SkipTrailing(s, i, |s|);
  }

  /** Slices of `w + s` past `w` are slices of `s`. */
  lemma AppendSlices(w: string, s: string, a: int, b: int)
    requires 0 <= a <= b <= |s|
    ensures (w + s)[|w| + a..|w| + b] == s[a..b]
  {
    var t := w + s;
    forall m | 0 <= m < b - a ensures t[|w| + a..|w| + b][m] == s[a..b][m] {
      assert t[|w| + a + m] == s[a + m];
    }
  }

  lemma PadLeftBounds(w: string, s: string, a: int, b: int)
    requires AllSpace(w) && TrimBounds(s, a, b)
    ensures TrimBounds(w + s, |w| + a, |w| + b)
  {
    var t := w + s;
    var n := |w|;
    forall m | 0 <= m < n + a ensures IsSpace(t[m]) {
      if m >= n { assert t[m] == s[m - n]; }
    }
    forall m | n + b <= m < |t| ensures IsSpace(t[m]) {
      assert t[m] == s[m - n];
    }
    assert a < b ==> t[n + a] == s[a] && t[n + b - 1] == s[b - 1];
  }

  lemma TrimPadLeft(w: string, s: string)
    requires AllSpace(w)
    ensures Trim(w + s) == Trim(s)
  {
    var a, b := TrimBoundsOfTrim(s);
    PadLeftBounds(w, s, a, b);
    TrimAt(w + s, |w| + a, |w| + b);
    AppendSlices(w, s, a, b);
  }

  lemma PadRightBounds(s: string, w: string, a: int, b: int)
    requires AllSpace(w) && TrimBounds(s, a, b)
    ensures TrimBounds(s + w, a, b)
  {
    var t := s + w;
    forall m | 0 <= m < a ensures IsSpace(t[m]) {
      assert t[m] == s[m];
    }
    forall m | b <= m < |t| ensures IsSpace(t[m]) {
      if m < |s| { assert t[m] == s[m]; } else { assert t[m] == w[m - |s|]; }
    }
    assert a < b ==> t[a] == s[a] && t[b - 1] == s[b - 1];
  }

  lemma TrimPadRight(s: string, w: string)
    requires AllSpace(w)
    ensures Trim(s + w) == Trim(s)
  {
    var a, b := TrimBoundsOfTrim(s);
    PadRightBounds(s, w, a, b);
    TrimAt(s + w, a, b);
    assert (s + w)[a..b] == s[a..b];
  }

  /** Whitespace added around a text does not change its trim. */
  lemma TrimPadded(w: string, s: string, w': string)
    requires AllSpace(w) && AllSpace(w')
    ensures Trim(w + s + w') == Trim(s)
  {
    TrimPadLeft(w, s);
    TrimPadRight(w + s, w');
  }

  /** An occurrence in the trim of `s` is an occurrence in `s`. */
  lemma TrimKeepsAbsence(s: string, t: string)
    requires !Includes(s, t)
    ensures !Includes(Trim(s), t)
  {
    var i := SkipLeading(s, 0);
    var j := SkipTrailing(s, i, |s|);
    assert Trim(s) == s[i..j];
    if Includes(s[i..j], t) {
      IncludesSlice(s, i, j, t);
    }
  }

  /** A string with no surrounding whitespace is its own trim. */
  lemma TrimOfTrimmed(s: string)
    requires Trimmed(s)
    ensures Trim(s) == s
  {
    assert SkipLeading(s, 0) == 0;
    assert SkipTrailing(s, 0, |s|) == |s|;
  }

  /** `s.trim()` is empty exactly when `s` is all whitespace (so `if (s.trim())`
    * fails exactly on blank input). */
  lemma TrimEmptyIffAllSpace(s: string)
    ensures Trim(s) == [] <==> AllSpace(s)
  {
    var i := SkipLeading(s, 0);
    var j := SkipTrailing(s, i, |s|);
    if AllSpace(s) {
      assert i == |s|;
    } else {
      var m :| 0 <= m < |s| && !IsSpace(s[m]);
      assert i <= m < j;
    }
  }

  function LowerChar(c: char): (d: char)
    ensures !IsUpper(d)
    ensures IsSpace(d) <==> IsSpace(c)
    ensures !IsUpper(c) ==> d == c
  {
    if IsUpper(c) then (c as int + 32) as char else c
  }

  /** `s.toLowerCase()`, for ASCII letters. */
  function Lower(s: string): (r: string)
    ensures |r| == |s|
    ensures forall i :: 0 <= i < |s| ==> r[i] == LowerChar(s[i])
  {
    seq(|s|, i requires 0 <= i < |s| => LowerChar(s[i]))
  }

  lemma LowerProperties(s: string)
    ensures NoUpper(Lower(s))
    ensures Trimmed(s) <==> Trimmed(Lower(s))
    ensures Lower(s) == [] <==> s == []
  {
  }

  /** Lower-casing twice is lower-casing once. */
  lemma LowerIdempotent(s: string)
    ensures Lower(Lower(s)) == Lower(s)
  {
  }

  /** Lower-casing commutes with slicing. */
  lemma LowerSlice(s: string, i: int, j: int)
    requires 0 <= i <= j <= |s|
    ensures Lower(s)[i..j] == Lower(s[i..j])
  {
  }

  /** Trimming and lower-casing commute: case does not change what counts
    * as surrounding whitespace. */
  lemma TrimLower(s: string)
    ensures Trim(Lower(s)) == Lower(Trim(s))
  {
    var a, b := TrimBoundsOfTrim(s);
    var t := Lower(s);
    assert TrimBounds(t, a, b);
    TrimAt(t, a, b);
    LowerSlice(s, a, b);
  }

  /** A string without capitals is its own lower case. */
  lemma LowerOfNoUpper(s: string)
    requires NoUpper(s)
    ensures Lower(s) == s
  {
  }

  predicate ContainsAt(s: string, t: string, i: int) {
    0 <= i && i + |t| <= |s| && s[i..i + |t|] == t
  }

  /** `s.includes(t)`: `t` occurs somewhere in `s`. */
  function Includes(s: string, t: string): (b: bool)
    ensures b <==> exists i :: ContainsAt(s, t, i)
    decreases |s|
  {
    if |t| > |s| then false
    else if s[..|t|] == t then
      assert ContainsAt(s, t, 0);
      true
    else
      var b := Includes(s[1..], t);
      if b then
        var i :| ContainsAt(s[1..], t, i);
        assert s[i + 1..i + 1 + |t|] == s[1..][i..i + |t|];
        assert ContainsAt(s, t, i + 1);
        b
      else
        forall i | ContainsAt(s, t, i) && i > 0 ensures ContainsAt(s[1..], t, i - 1) {
          assert s[1..][i - 1..i - 1 + |t|] == s[i..i + |t|];
        }
        b
  }

  /** The empty string occurs in every string (`s.includes('')` holds). */
  lemma IncludesEmpty(s: string)
    ensures Includes(s, "")
  {
    assert ContainsAt(s, "", 0);
  }

  /** An occurrence inside a slice is an occurrence in the whole string. */
  lemma IncludesSlice(s: string, i: int, j: int, t: string)
    requires 0 <= i <= j <= |s|
    requires Includes(s[i..j], t)
    ensures Includes(s, t)
  {
    var k :| ContainsAt(s[i..j], t, k);
    assert k + |t| <= j - i;
    forall m | 0 <= m < |t| ensures s[i + k..i + k + |t|][m] == t[m] {
      assert s[i..j][k..k + |t|][m] == t[m];
    }
    assert ContainsAt(s, t, i + k);
  }

  /** An occurrence of `t` contains an occurrence of each prefix of `t`. */
  lemma IncludesPrefix(s: string, t: string, n: nat)
    requires n <= |t|
    requires Includes(s, t)
    ensures Includes(s, t[..n])
  {
    var i :| ContainsAt(s, t, i);
    assert s[i..i + n] == s[i..i + |t|][..n];
    assert ContainsAt(s, t[..n], i);
  }

  /** A string without the character `c` contains no text that has it. */
  lemma IncludesChar(s: string, t: string, k: nat)
    requires k < |t|
    requires Includes(s, t)
    ensures t[k] in s
  {
    var i :| ContainsAt(s, t, i);
    assert s[i + k] == s[i..i + |t|][k];
  }

  /** `s.replace(/p/g, '')` for a literal pattern `p`: scan from the left
    * and drop every non-overlapping occurrence of `p`. */
  function RemoveAll(s: string, p: string): (r: string)
    requires |p| > 0
    ensures |r| <= |s|
    decreases |s|
  {
    if |s| < |p| then s
    else if s[..|p|] == p then RemoveAll(s[|p|..], p)
    else [s[0]] + RemoveAll(s[1..], p)
  }

  /** Without an occurrence of `p`, removing `p` changes nothing. */
  lemma {:induction false} RemoveAllAbsent(s: string, p: string)
    requires |p| > 0
    requires !Includes(s, p)
    ensures RemoveAll(s, p) == s
    decreases |s|
  {
    if |s| >= |p| {
      assert !ContainsAt(s, p, 0);
      if !Includes(s[1..], p) {
        RemoveAllAbsent(s[1..], p);
      } else {
        IncludesSlice(s, 1, |s|, p);
      }
    }
  }

  /** An occurrence at the front is dropped and the scan goes on after it. */
  lemma RemoveAllFront(p: string, t: string)
    requires |p| > 0
    ensures RemoveAll(p + t, p) == RemoveAll(t, p)
  {
    assert (p + t)[..|p|] == p && (p + t)[|p|..] == t;
  }

  /** Text without a backtick passes through the removal of a pattern that
    * starts with one, whatever follows it. */
  lemma {:induction false} RemoveAllKeepsTickFree(s: string, t: string, p: string)
    requires |p| > 0 && p[0] == '`' && '`' !in s
    ensures RemoveAll(s + t, p) == s + RemoveAll(t, p)
    decreases |s|
  {
    var u := s + t;
    if s == [] {
      assert u == t;
    } else {
      var s' := s[1..];
      assert u[0] == s[0] && s[0] in s;
      assert u[1..] == s' + t;
      assert '`' !in s' by {
        assert forall c :: c in s' ==> c in s;
      }
      RemoveAllKeepsTickFree(s', t, p);
      if |u| >= |p| {
        assert u[..|p|][0] != p[0];
      }
      assert RemoveAll(u, p) == [s[0]] + RemoveAll(s' + t, p);
      assert s == [s[0]] + s';
    }
  }

  /** A fence "```" starts at index `i` of `s`. */
  predicate FenceAt(s: string, i: int) {
    0 <= i && i + 3 <= |s| && s[i] == '`' && s[i + 1] == '`' && s[i + 2] == '`'
  }

  /** Each piece that survives a removal of "```" ends in a non-backtick, so
    * the result starts with one or two backticks only where the input does. */
  lemma {:induction false} RemoveFencePrefix(s: string)
    ensures var r := RemoveAll(s, "```");
      |r| >= 1 && r[0] == '`' ==> |s| >= 1 && s[0] == '`'
    ensures var r := RemoveAll(s, "```");
      |r| >= 2 && r[0] == '`' && r[1] == '`' ==> |s| >= 2 && s[0] == '`' && s[1] == '`'
    decreases |s|
  {
    if |s| >= 3 {
      if s[..3] == "```" {
        RemoveFencePrefix(s[3..]);
        assert s[0] == s[..3][0] && s[1] == s[..3][1];
      } else {
        RemoveFencePrefix(s[1..]);
      }
    }
  }

  lemma {:induction false} RemoveFenceNoFenceAt(s: string)
    ensures forall i :: !FenceAt(RemoveAll(s, "```"), i)
    decreases |s|
  {
    if |s| < 3 {
    } else if s[..3] == "```" {
      RemoveFenceNoFenceAt(s[3..]);
    } else {
      var t := RemoveAll(s[1..], "```");
      var r := [s[0]] + t;
      assert RemoveAll(s, "```") == r;
      RemoveFenceNoFenceAt(s[1..]);
      RemoveFencePrefix(s[1..]);
      assert !FenceAt(r, 0) by {
        assert s[..3] != "```";
      }
      forall i | 0 < i ensures !FenceAt(r, i) {
        assert !FenceAt(t, i - 1);
      }
    }
  }

  /** Removing every "```" leaves none behind: a new occurrence cannot form
    * across a removed one. */
  lemma RemoveFenceLeavesNone(s: string)
    ensures !Includes(RemoveAll(s, "```"), "```")
  {
    var r := RemoveAll(s, "```");
    RemoveFenceNoFenceAt(s);
    forall i | ContainsAt(r, "```", i) ensures FenceAt(r, i) {
      assert r[i..i + 3][0] == r[i] && r[i..i + 3][1] == r[i + 1] && r[i..i + 3][2] == r[i + 2];
    }
  }

  /** `xs.join(sep)`. */
  function Join(xs: seq<string>, sep: string): (r: string)
    ensures |xs| == 1 ==> r == xs[0]
    ensures xs == [] ==> r == ""
  {
    if xs == [] then ""
    else if |xs| == 1 then xs[0]
    else xs[0] + sep + Join(xs[1..], sep)
  }

  /** Joining one more string appends the separator and that string. */
  lemma {:induction false} JoinSnoc(xs: seq<string>, x: string, sep: string)
    requires xs != []
    ensures Join(xs + [x], sep) == Join(xs, sep) + sep + x
    decreases |xs|
  {
    assert (xs + [x])[0] == xs[0];
    if |xs| > 1 {
      assert (xs + [x])[1..] == xs[1..] + [x];
      JoinSnoc(xs[1..], x, sep);
    } else {
      assert (xs + [x])[1..] == [x];
    }
  }

  /** The strings of `xs` one after the other. */
  function Concat(xs: seq<string>): string {
    if xs == [] then "" else Concat(xs[..|xs| - 1]) + xs[|xs| - 1]
  }

  lemma {:induction false} ConcatAppend(xs: seq<string>, ys: seq<string>)
    ensures Concat(xs + ys) == Concat(xs) + Concat(ys)
    decreases |ys|
  {
    if ys == [] {
      assert xs + ys == xs;
    } else {
      var ys' := ys[..|ys| - 1];
      assert (xs + ys)[..|xs + ys| - 1] == xs + ys';
      assert (xs + ys)[|xs + ys| - 1] == ys[|ys| - 1];
      assert Concat(xs + ys) == Concat(xs + ys') + ys[|ys| - 1];
      ConcatAppend(xs, ys');
      assert Concat(ys) == Concat(ys') + ys[|ys| - 1];
    }
  }

  function DigitChar(d: nat): (c: char)
    requires d < 10
    ensures '0' <= c <= '9'
  {
    ('0' as int + d) as char
  }

  predicate AllDigits(s: string) {
    forall i :: 0 <= i < |s| ==> '0' <= s[i] <= '9'
  }

  /** `${n}` for a non-negative integer: its decimal digits, no leading zero. */
  function DecimalString(n: nat): (s: string)
    ensures |s| > 0 && AllDigits(s)
    ensures s[0] == '0' ==> n == 0
  {
    if n < 10 then [DigitChar(n)]
    else DecimalString(n / 10) + [DigitChar(n % 10)]
  }

  /** The value of a string of decimal digits. */
  function DecimalValue(s: string): nat
    requires AllDigits(s)
  {
    if s == [] then 0
    else DecimalValue(s[..|s| - 1]) * 10 + (s[|s| - 1] as int - '0' as int)
  }

  /** Reading back the decimal rendering of `n` gives `n`. */
  lemma {:induction false} DecimalRoundTrip(n: nat)
    ensures DecimalValue(DecimalString(n)) == n
  {
    if n >= 10 {
      var s := DecimalString(n);
      assert s[..|s| - 1] == DecimalString(n / 10);
      DecimalRoundTrip(n / 10);
    }
  }
}
