/**
 * Shared helpers used by every module: optional values, ASCII text
 * operations that mirror the Rust standard-library calls of the source
 * (`to_lowercase`, `trim`, `contains`, `split_whitespace`, `join`),
 * numeric clamps and rounding, and a lexicographic order on strings with
 * the `sort` + `dedup` pipeline built on it.
 */
module Common {

  datatype Option<T> = None | Some(value: T)

  // ---------------------------------------------------------------------
  // Numbers
  // ---------------------------------------------------------------------

  function Min(a: int, b: int): int { if a <= b then a else b }
  function Max(a: int, b: int): int { if a >= b then a else b }
  function MinR(a: real, b: real): real { if a <= b then a else b }
  function MaxR(a: real, b: real): real { if a >= b then a else b }

  /** `x.clamp(lo, hi)` on integers. */
  function Clamp(x: int, lo: int, hi: int): (r: int)
    requires lo <= hi
    ensures lo <= r <= hi
    ensures lo <= x <= hi ==> r == x
  {
    if x < lo then lo else if x > hi then hi else x
  }

  /** `x.clamp(lo, hi)` on reals (the source's `f32`/`f64`). */
  function ClampR(x: real, lo: real, hi: real): (r: real)
    requires lo <= hi
    ensures lo <= r <= hi
    ensures lo <= x <= hi ==> r == x
  {
    if x < lo then lo else if x > hi then hi else x
  }

  /**
   * `.round()` modelled on exact reals as floor(x + 1/2); for the
   * non-negative values the source rounds, this agrees with rounding
   * half away from zero.
   */
  function Round(x: real): (r: int)
    ensures x - 0.5 < r as real <= x + 0.5
  {
    (x + 0.5).Floor
  }

  lemma RoundMonotone(x: real, y: real)
    requires x <= y
    ensures Round(x) <= Round(y)
  {
  }

  /** `a.saturating_sub(b)` on unsigned integers. */
  function SatSub(a: nat, b: nat): (r: nat)
    ensures r == if a >= b then a - b else 0
  {
    if a >= b then a - b else 0
  }

  /** `Instant::elapsed` in seconds on a monotonic clock; saturates at zero. */
  function Elapsed(now: nat, at: nat): nat { SatSub(now, at) }

  /** Multiplying by a non-negative factor keeps an order. */
  lemma MulLeft(c: real, a: real, b: real)
    requires c >= 0.0 && a <= b
    ensures c * a <= c * b
  {
  }

  lemma MulNonneg(a: real, b: real)
    requires a >= 0.0 && b >= 0.0
    ensures a * b >= 0.0
  {
  }

  /** Bounds on a real quotient from bounds on its numerator. */
  lemma DivBounds(s: real, n: real, lo: real, hi: real)
    requires n > 0.0 && lo * n <= s <= hi * n
    ensures lo <= s / n <= hi
  {
    assert (s / n) * n == s;
  }

  /** Signed integer division truncating toward zero, as Rust's `/` on `i64`. */
  function TruncDiv(a: int, b: int): (q: int)
    requires b > 0
    ensures a >= 0 ==> q == a / b && q * b <= a < q * b + b
    ensures a < 0 ==> q == -((-a) / b)
  {
    if a >= 0 then a / b else -((-a) / b)
  }

  // ---------------------------------------------------------------------
  // Characters and strings (ASCII model of Rust `str`)
  // ---------------------------------------------------------------------

  predicate IsWs(c: char) {
    c == ' ' || c == '\t' || c == '\n' || c == '\r' || c == '\U{000B}' || c == '\U{000C}'
  }

  predicate IsDigit(c: char) { '0' <= c <= '9' }

  predicate IsAlnum(c: char) { IsDigit(c) || 'a' <= c <= 'z' || 'A' <= c <= 'Z' }

  function LowerChar(c: char): char {
    if 'A' <= c <= 'Z' then (c as int + 32) as char else c
  }

  /** ASCII `to_lowercase`. */
  function Lower(s: string): (r: string)
    ensures |r| == |s|
    ensures forall i :: 0 <= i < |s| ==> r[i] == LowerChar(s[i])
  {
    seq(|s|, i requires 0 <= i < |s| => LowerChar(s[i]))
  }

  /** ASCII `eq_ignore_ascii_case`. */
  predicate EqIgnoreCase(a: string, b: string) { Lower(a) == Lower(b) }

  predicate StartsWith(s: string, p: string) { |p| <= |s| && s[..|p|] == p }

  predicate EndsWith(s: string, p: string) { |p| <= |s| && s[|s| - |p|..] == p }

  /** `sub` occurs in `s` starting at index `i`. */
  predicate OccursAt(s: string, sub: string, i: int) {
    0 <= i <= |s| - |sub| && s[i..i + |sub|] == sub
  }

  /** `s.contains(sub)`: some window of `s` equals `sub`. */
  predicate Contains(s: string, sub: string) {
    exists i :: 0 <= i <= |s| - |sub| && OccursAt(s, sub, i)
  }

  predicate ContainsChar(s: string, c: char) { c in s }

  /** Whether any of the needles occurs in `s`. */
  predicate ContainsAny(s: string, needles: seq<string>) {
    exists k :: 0 <= k < |needles| && Contains(s, needles[k])
  }

  /** Number of needles that occur in `s` (each needle counted once). */
  function CountContained(s: string, needles: seq<string>): (n: nat)
    ensures n <= |needles|
    ensures n == 0 <==> !ContainsAny(s, needles)
  {
    if |needles| == 0 then 0
    else
      var rest := CountContained(s, needles[1..]);
      assert forall k :: 1 <= k < |needles| ==> needles[k] == needles[1..][k - 1];
      assert ContainsAny(s, needles[1..]) ==> ContainsAny(s, needles);
      (if Contains(s, needles[0]) then 1 else 0) + rest
  }

  lemma ContainsShift(s: string, sub: string, k: int)
    requires 0 <= k <= |s| && Contains(s[k..], sub)
    ensures Contains(s, sub)
  {
    var t := s[k..];
    var i :| 0 <= i <= |t| - |sub| && OccursAt(t, sub, i);
    assert t[i..i + |sub|] == sub;
    assert s[k + i..k + i + |sub|] == t[i..i + |sub|];
    assert OccursAt(s, sub, k + i);
  }

  /** Concatenation regroups freely; stated once so literal-heavy strings need not be unfolded. */
  lemma AppendAssoc<T>(a: seq<T>, b: seq<T>, c: seq<T>)
    ensures (a + b) + c == a + (b + c)
  {
  }

  /** Dropping the last element of `a + b`, for a non-empty `b`, drops it from `b`. */
  lemma DropLastOfAppend<T>(a: seq<T>, b: seq<T>)
    requires |b| > 0
    ensures (a + b)[..|a + b| - 1] == a + b[..|b| - 1]
    ensures (a + b)[|a + b| - 1] == b[|b| - 1]
  {
  }

  /** A string whose prefix lowercases to `w` contains `w` once lowercased. */
  lemma LowerPrefixContained(pre: string, rest: string)
    ensures Contains(Lower(pre + rest), Lower(pre))
  {
    var q := Lower(pre + rest);
    assert q[0..|pre|] == Lower(pre);
    assert OccursAt(q, Lower(pre), 0);
  }

  function TrimStart(s: string): (r: string)
    ensures |r| <= |s| && r == s[|s| - |r|..]
    ensures |r| > 0 ==> !IsWs(r[0])
    ensures forall i :: 0 <= i < |s| - |r| ==> IsWs(s[i])
  {
    if |s| > 0 && IsWs(s[0]) then TrimStart(s[1..]) else s
  }

  function TrimEnd(s: string): (r: string)
    ensures |r| <= |s| && r == s[..|r|]
    ensures |r| > 0 ==> !IsWs(r[|r| - 1])
    ensures forall i :: |r| <= i < |s| ==> IsWs(s[i])
  {
    if |s| > 0 && IsWs(s[|s| - 1]) then TrimEnd(s[..|s| - 1]) else s
  }

  /** `str::trim`: no whitespace at either end. */
  function Trim(s: string): (r: string)
    ensures |r| <= |s|
    ensures |r| > 0 ==> !IsWs(r[0]) && !IsWs(r[|r| - 1])
  {
    TrimEnd(TrimStart(s))
  }

  lemma TrimIdempotent(s: string)
    ensures Trim(Trim(s)) == Trim(s)
  {
    var t := Trim(s);
    if |t| > 0 {
      assert TrimStart(t) == t;
      assert TrimEnd(t) == t;
    }
  }

  /** Trimming only removes characters: what is left was in the text. */
  lemma TrimKeepsChars(s: string)
    ensures forall i :: 0 <= i < |Trim(s)| ==> Trim(s)[i] in s
  {
    var a := TrimStart(s);
    var t := TrimEnd(a);
    assert forall i :: 0 <= i < |t| ==> t[i] == a[i] == s[|s| - |a| + i];
  }

  predicate IsBlank(s: string) { |Trim(s)| == 0 }

  lemma BlankIffAllWs(s: string)
    ensures IsBlank(s) <==> forall i :: 0 <= i < |s| ==> IsWs(s[i])
  {
    var a := TrimStart(s);
    if |a| > 0 {
      assert !IsWs(s[|s| - |a|]);
      assert |TrimEnd(a)| > 0;
    }
  }

  predicate NoWs(w: string) { forall i :: 0 <= i < |w| ==> !IsWs(w[i]) }

  predicate IsWord(w: string) { |w| > 0 && NoWs(w) }

  /** A word is its own trim. */
  lemma TrimOfNoWs(w: string)
    requires NoWs(w)
    ensures Trim(w) == w
  {
    assert TrimStart(w) == w;
  }

  /** The longest prefix of `s` without whitespace. */
  function TakeWord(s: string): (w: string)
    ensures |w| <= |s| && w == s[..|w|] && NoWs(w)
    ensures |w| < |s| ==> IsWs(s[|w|])
  {
    if |s| == 0 || IsWs(s[0]) then [] else [s[0]] + TakeWord(s[1..])
  }

  /** `str::split_whitespace`. */
  function SplitWs(s: string): (ws: seq<string>)
    ensures forall k :: 0 <= k < |ws| ==> IsWord(ws[k])
    decreases |s|
  {
    if |s| == 0 then []
    else if IsWs(s[0]) then SplitWs(s[1..])
    else
      var w := TakeWord(s);
      [w] + SplitWs(s[|w|..])
  }

  /** `[..].join(sep)`. */
  function Join(ws: seq<string>, sep: string): string {
    if |ws| == 0 then []
    else if |ws| == 1 then ws[0]
    else ws[0] + sep + Join(ws[1..], sep)
  }

  /** Concatenation without separator. */
  function Concat(ws: seq<string>): string {
    if |ws| == 0 then [] else ws[0] + Concat(ws[1..])
  }

  lemma {:induction false} TakeWordOfJoin(w: string, rest: string)
    requires NoWs(w)
    requires |rest| == 0 || IsWs(rest[0])
    ensures TakeWord(w + rest) == w
    decreases |w|
  {
    if |w| > 0 {
      assert (w + rest)[1..] == w[1..] + rest;
      TakeWordOfJoin(w[1..], rest);
    }
  }

  lemma {:induction false} SplitWsOfJoin(ws: seq<string>)
    requires forall k :: 0 <= k < |ws| ==> IsWord(ws[k])
    ensures SplitWs(Join(ws, " ")) == ws
    decreases |ws|
  {
    if |ws| == 1 {
      var w := ws[0];
      TakeWordOfJoin(w, []);
      assert w + [] == w;
      assert w[|w|..] == [];
    } else if |ws| > 1 {
      var w := ws[0];
      var tail := Join(ws[1..], " ");
      var s := w + " " + tail;
      assert s == w + (" " + tail);
      TakeWordOfJoin(w, " " + tail);
      assert s[|w|..] == " " + tail;
      assert (" " + tail)[1..] == tail;
      SplitWsOfJoin(ws[1..]);
      assert [ws[0]] + ws[1..] == ws;
    }
  }

  /** A lower-case word of letters, digits and underscores. */
  predicate PlainWord(s: string) {
    |s| > 0 && forall i :: 0 <= i < |s| ==> ('a' <= s[i] <= 'z' || '0' <= s[i] <= '9' || s[i] == '_')
  }

  /** Trimming and lower-casing leave a plain word as it is. */
  lemma PlainWordCanonical(s: string)
    requires PlainWord(s)
    ensures Trim(s) == s && Lower(Trim(s)) == s
  {
    assert TrimStart(s) == s;
    assert TrimEnd(s) == s;
    assert Lower(s) == s;
  }

  /**
   * `match value.trim().to_lowercase() { allowed.. => that, _ => default }`,
   * the allow-list normalisation of task types and QoS classes.
   */
  function AllowListed(value: string, allowed: seq<string>, default: string): (r: string)
    ensures r in allowed || r == default
    ensures Lower(Trim(value)) in allowed ==> r == Lower(Trim(value))
    ensures Lower(Trim(value)) !in allowed ==> r == default
  {
    var t := Lower(Trim(value));
    if t in allowed then t else default
  }

  /** With canonical allow-list entries and default, normalising twice is normalising once. */
  lemma AllowListedIdempotent(value: string, allowed: seq<string>, default: string)
    requires forall i :: 0 <= i < |allowed| ==> PlainWord(allowed[i])
    requires PlainWord(default)
    ensures AllowListed(AllowListed(value, allowed, default), allowed, default) == AllowListed(value, allowed, default)
  {
    var r := AllowListed(value, allowed, default);
    if r in allowed {
      var i :| 0 <= i < |allowed| && allowed[i] == r;
      PlainWordCanonical(r);
    } else {
      PlainWordCanonical(default);
    }
  }

  // ---------------------------------------------------------------------
  // Decimal formatting
  // ---------------------------------------------------------------------

  function DigitChar(d: nat): (c: char)
    requires d < 10
    ensures IsDigit(c)
  {
    ('0' as int + d) as char
  }

  /** `n.to_string()` for unsigned integers. */
  function NatToString(n: nat): (s: string)
    ensures |s| > 0
    ensures forall i :: 0 <= i < |s| ==> IsDigit(s[i])
  {
    if n < 10 then [DigitChar(n)] else NatToString(n / 10) + [DigitChar(n % 10)]
  }

  /** `format!("{}", i)` for signed integers. */
  function IntToString(i: int): (s: string)
    ensures |s| > 0
  {
    if i < 0 then "-" + NatToString(-i) else NatToString(i)
  }

  /** Hundredths written with two decimals: the whole part, a point, then two digits. */
  function Hundredths(h: nat): (s: string)
    ensures |s| >= 4 && s[|s| - 3] == '.' && IsDigit(s[|s| - 2]) && IsDigit(s[|s| - 1])
    ensures forall i :: 0 <= i < |s| && i != |s| - 3 ==> IsDigit(s[i])
  {
    NatToString(h / 100) + "." + [DigitChar(h % 100 / 10), DigitChar(h % 10)]
  }

  /**
   * The integer nearest to `x`, an exact half going to the even
   * neighbour: the rounding `format!` applies to the digits it drops.
   */
  function RoundHalfEven(x: real): (r: int)
    ensures x - 0.5 <= r as real <= x + 0.5
    ensures r as real == x - 0.5 || r as real == x + 0.5 ==> r % 2 == 0
    ensures x >= 0.0 ==> r >= 0
  {
    var f := x.Floor;
    var d := x - f as real;
    if d < 0.5 then f else if d > 0.5 then f + 1 else if f % 2 == 0 then f else f + 1
  }

  /**
   * `format!("{:.2}", x)` on exact reals: the magnitude rounded to
   * hundredths, an exact tie to the even hundredth, with a minus sign for
   * negative values.
   */
  function Fixed2(x: real): (s: string)
    ensures |s| >= 4 && s[|s| - 3] == '.' && IsDigit(s[|s| - 2]) && IsDigit(s[|s| - 1])
    ensures s[0] == '-' <==> x < 0.0
  {
    if x < 0.0 then "-" + Hundredths(RoundHalfEven(-x * 100.0)) else Hundredths(RoundHalfEven(x * 100.0))
  }

  /** A value with at most two decimals is written exactly. */
  lemma Fixed2OfHundredths(h: nat)
    ensures Fixed2(h as real / 100.0) == Hundredths(h)
  {
    assert (h as real / 100.0) * 100.0 == h as real;
  }

  /** Worked values: a whole fit and a half fit. */
  lemma Fixed2Examples()
    ensures Fixed2(1.0) == "1.00" && Fixed2(0.5) == "0.50"
  {
    Fixed2OfHundredths(100);
    Fixed2OfHundredths(50);
    assert 100 / 100 == 1 && NatToString(1) == "1";
    assert 50 / 100 == 0 && NatToString(0) == "0";
  }

  /** Exact ties go to the even hundredth: 0.625 is written "0.62", 0.875 "0.88". */
  lemma Fixed2TiesToEven()
    ensures Fixed2(0.625) == "0.62" && Fixed2(0.875) == "0.88" && Fixed2(-0.125) == "-0.12"
  {
    assert RoundHalfEven(62.5) == 62;
    assert RoundHalfEven(87.5) == 88;
    assert RoundHalfEven(12.5) == 12;
    assert NatToString(0) == "0";
  }

  // ---------------------------------------------------------------------
  // Lexicographic order on strings (Rust `Ord for String` on ASCII) and
  // the `sort()` + `dedup()` pipeline.
  // ---------------------------------------------------------------------

  predicate LexLess(a: string, b: string)
    decreases |a|
  {
    if |a| == 0 then |b| > 0
    else if |b| == 0 then false
    else if a[0] != b[0] then a[0] < b[0]
    else LexLess(a[1..], b[1..])
  }

  lemma {:induction false} LexIrreflexive(a: string)
    ensures !LexLess(a, a)
    decreases |a|
  {
    if |a| > 0 { LexIrreflexive(a[1..]); }
  }

  lemma {:induction false} LexTransitive(a: string, b: string, c: string)
    requires LexLess(a, b) && LexLess(b, c)
    ensures LexLess(a, c)
    decreases |a|
  {
    if |a| > 0 && |b| > 0 && |c| > 0 && a[0] == b[0] && b[0] == c[0] {
      LexTransitive(a[1..], b[1..], c[1..]);
    }
  }

  lemma {:induction false} LexTotal(a: string, b: string)
    ensures a == b || LexLess(a, b) || LexLess(b, a)
    decreases |a|
  {
    if |a| > 0 && |b| > 0 && a[0] == b[0] {
      LexTotal(a[1..], b[1..]);
      if a[1..] == b[1..] {
        assert a == [a[0]] + a[1..] && b == [b[0]] + b[1..];
      }
    }
  }

  predicate LexLessEq(a: string, b: string) { a == b || LexLess(a, b) }

  predicate StrictlySorted(s: seq<string>) {
    forall i, j :: 0 <= i < j < |s| ==> LexLess(s[i], s[j])
  }

  predicate SortedLex(s: seq<string>) {
    forall i, j :: 0 <= i < j < |s| ==> LexLessEq(s[i], s[j])
  }

  /** Insert `x` into a strictly sorted list unless already present. */
  function InsertUnique(x: string, s: seq<string>): (r: seq<string>)
    requires StrictlySorted(s)
    ensures StrictlySorted(r)
    ensures forall y :: y in r <==> y == x || y in s
  {
    if |s| == 0 then [x]
    else if x == s[0] then s
    else if LexLess(x, s[0]) then
      assert forall j :: 0 <= j < |s| ==> LexLess(x, s[j]) by {
        forall j | 0 <= j < |s| ensures LexLess(x, s[j]) {
          if j > 0 { LexTransitive(x, s[0], s[j]); }
        }
      }
      [x] + s
    else
      LexTotal(x, s[0]);
      var t := InsertUnique(x, s[1..]);
      assert forall y :: y in s[1..] ==> LexLess(s[0], y);
      [s[0]] + t
  }

  /** `v.sort(); v.dedup();` on a vector of strings. */
  function SortDedup(s: seq<string>): (r: seq<string>)
    ensures StrictlySorted(r)
    ensures forall y :: y in r <==> y in s
  {
    if |s| == 0 then [] else InsertUnique(s[0], SortDedup(s[1..]))
  }

  lemma LexAntisymmetric(x: string, y: string)
    requires LexLessEq(x, y) && LexLessEq(y, x)
    ensures x == y
  {
    if x != y {
      LexTransitive(x, y, x);
      LexIrreflexive(x);
      assert false;
    }
  }

  /**
   * A strictly sorted list is determined by its elements, so `SortDedup`
   * is the one and only result `sort` followed by `dedup` can produce.
   */
  lemma {:induction false} StrictlySortedUnique(a: seq<string>, b: seq<string>)
    requires StrictlySorted(a) && StrictlySorted(b)
    requires forall y :: y in a <==> y in b
    ensures a == b
    decreases |a|
  {
    if |a| > 0 { assert a[0] in b; }
    if |b| > 0 { assert b[0] in a; }
    if |a| > 0 {
      assert a[0] in b && b[0] in a;
      assert LexLessEq(b[0], a[0]);
      assert LexLessEq(a[0], b[0]);
      LexAntisymmetric(a[0], b[0]);
      assert a == [a[0]] + a[1..] && b == [b[0]] + b[1..];
      forall y ensures y in a[1..] <==> y in b[1..] {
        LexIrreflexive(y);
        if y in a[1..] {
          var j :| 0 <= j < |a[1..]| && a[1..][j] == y;
          assert a[j + 1] == y;
          assert LexLess(a[0], y);
          assert y in b && y != b[0];
        }
        if y in b[1..] {
          var j :| 0 <= j < |b[1..]| && b[1..][j] == y;
          assert b[j + 1] == y;
          assert LexLess(b[0], y);
          assert y in a && y != a[0];
        }
      }
      StrictlySortedUnique(a[1..], b[1..]);
    }
  }

  /** The index of the first `c` in `s`, or `|s|` when there is none. */
  function FirstIndex(s: string, c: char): (r: nat)
    ensures r <= |s|
    ensures c !in s[..r]
    ensures r < |s| <==> c in s
    ensures r < |s| ==> s[r] == c
  {
    if |s| == 0 then 0
    else if s[0] == c then 0
    else
      var r := 1 + FirstIndex(s[1..], c);
      assert s[..r] == [s[0]] + s[1..][..r - 1];
      r
  }

  /** `iter().find(p)`: the index of the first element satisfying `p`. */
  function FirstWhere<T>(ms: seq<T>, p: T -> bool): (r: Option<nat>)
    ensures r.Some? ==> r.value < |ms| && p(ms[r.value]) && forall j :: 0 <= j < r.value ==> !p(ms[j])
    ensures r.None? <==> forall j :: 0 <= j < |ms| ==> !p(ms[j])
  {
    if |ms| == 0 then None
    else if p(ms[0]) then Some(0)
    else
      var k := FirstWhere(ms[1..], p);
      assert forall j :: 1 <= j < |ms| ==> ms[j] == ms[1..][j - 1];
      if k.Some? then Some(k.value + 1) else None
  }

  /** `iter().take(n)`. */
  function Take<T>(s: seq<T>, n: nat): (r: seq<T>)
    ensures |r| == Min(n, |s|) && r == s[..|r|]
  {
    if n >= |s| then s else s[..n]
  }

  /** Reverse of a sequence. */
  function Reverse<T>(s: seq<T>): (r: seq<T>)
    ensures |r| == |s|
    ensures forall i :: 0 <= i < |s| ==> r[i] == s[|s| - 1 - i]
  {
    if |s| == 0 then [] else Reverse(s[1..]) + [s[0]]
  }
}
