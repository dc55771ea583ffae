/** The Kotlin standard-library string operations the core relies on, over `seq<char>`. */
module Strings {
  import opened Wrappers

  /** `s.startsWith(p)` */
  predicate StartsWith(s: string, p: string) {
    |p| <= |s| && s[..|p|] == p
  }

  /** `p` occurs in `s` starting at index `k`. */
  predicate OccursAt(s: string, p: string, k: int) {
    0 <= k && k + |p| <= |s| && s[k..k + |p|] == p
  }

  /** `s.contains(p)` */
  predicate Contains(s: string, p: string)
    decreases |s|
  {
    StartsWith(s, p) || (|s| > 0 && Contains(s[1..], p))
  }

  lemma OccursAtTail(s: string, p: string, k: int)
    requires |s| > 0 && k >= 1
    ensures OccursAt(s, p, k) <==> OccursAt(s[1..], p, k - 1)
  {
    if k + |p| <= |s| {
      assert s[k..k + |p|] == s[1..][k - 1..k - 1 + |p|];
    }
  }

  /** `Contains` holds exactly when there is an occurrence. */
  lemma {:induction false} ContainsOccurs(s: string, p: string)
    ensures Contains(s, p) <==> exists k :: OccursAt(s, p, k)
    decreases |s|
  {
    assert StartsWith(s, p) <==> OccursAt(s, p, 0);
    if |s| > 0 {
      ContainsOccurs(s[1..], p);
      if Contains(s[1..], p) {
        var k :| OccursAt(s[1..], p, k);
        OccursAtTail(s, p, k + 1);
      }
      if k :| OccursAt(s, p, k) && k >= 1 {
        OccursAtTail(s, p, k);
      }
    } else {
      if k :| OccursAt(s, p, k) {
        assert k == 0;
      }
    }
  }

  lemma OccursContains(s: string, p: string, k: int)
    requires OccursAt(s, p, k)
    ensures Contains(s, p)
  {
    ContainsOccurs(s, p);
  }

  /** `s.indexOf(p)`: the first occurrence, or -1 when there is none. */
  function IndexOf(s: string, p: string): (r: int)
    ensures r == -1 || OccursAt(s, p, r)
    ensures r == -1 <==> !Contains(s, p)
    ensures forall j :: 0 <= j < r ==> !OccursAt(s, p, j)
    decreases |s|
  {
    if StartsWith(s, p) then 0
    else if |s| == 0 then -1
    else
      var r := IndexOf(s[1..], p);
      assert !OccursAt(s, p, 0);
      if r == -1 then -1
      else
        OccursAtTail(s, p, r + 1);
        assert forall j :: 1 <= j < r + 1 ==> (OccursAt(s, p, j) <==> OccursAt(s[1..], p, j - 1)) by {
          forall j | 1 <= j < r + 1 { OccursAtTail(s, p, j); }
        }
        r + 1
  }

  /** `s.substringAfter(d)`: what follows the first `d`, or `s` when `d` is missing. */
  function SubstringAfter(s: string, d: string): (r: string)
    ensures !Contains(s, d) ==> r == s
    ensures Contains(s, d) ==> exists k :: OccursAt(s, d, k) && r == s[k + |d|..]
  {
    var i := IndexOf(s, d);
    if i < 0 then s else s[i + |d|..]
  }

  /** An occurrence inside a prefix is an occurrence in the whole string. */
  lemma OccursInPrefix(s: string, d: string, i: int, k: int)
    requires 0 <= i <= |s|
    ensures OccursAt(s[..i], d, k) ==> OccursAt(s, d, k) && k + |d| <= i
  {
    if OccursAt(s[..i], d, k) {
      assert s[..i][k..k + |d|] == s[k..k + |d|];
    }
  }

  /** No occurrence of `d` lies wholly inside a prefix that ends before the first one. */
  lemma PrefixBeforeFirst(s: string, d: string, i: int)
    requires d != [] && 0 <= i <= |s|
    requires forall j :: 0 <= j < i ==> !OccursAt(s, d, j)
    ensures !Contains(s[..i], d)
  {
    ContainsOccurs(s[..i], d);
    forall k ensures !OccursAt(s[..i], d, k) {
      OccursInPrefix(s, d, i, k);
    }
  }

  /** `s.substringBefore(d)`: what precedes the first `d`, or `s` when `d` is missing. */
  function SubstringBefore(s: string, d: string): (r: string)
    ensures !Contains(s, d) ==> r == s
    ensures Contains(s, d) ==> StartsWith(s, r + d) && (d != [] ==> !Contains(r, d))
  {
    var i := IndexOf(s, d);
    if i < 0 then s
    else
      assert s[..i + |d|] == s[..i] + d;
      if d == [] then s[..i]
      else
        PrefixBeforeFirst(s, d, i);
        s[..i]
  }

  /** The text before the first separator, when the head holds none. */
  lemma SubstringBeforeSeparator(a: string, c: char, b: string)
    requires c !in a
    ensures SubstringBefore(a + [c] + b, [c]) == a
  {
    var s := a + [c] + b;
    assert s[|a|..|a| + 1] == [c];
    OccursContains(s, [c], |a|);
    forall j | 0 <= j < |a| ensures !OccursAt(s, [c], j) {
      assert s[j] == a[j];
      assert s[j..j + 1] == [s[j]];
    }
    var i := IndexOf(s, [c]);
    assert OccursAt(s, [c], |a|);
    assert !(|a| < i);
    assert i == |a|;
    assert s[..|a|] == a;
  }

  /** `s.replace(p, r)` for a non-empty `p`: every occurrence, left to right, without overlap. */
  function ReplaceAll(s: string, p: string, r: string): (t: string)
    requires p != []
    ensures !Contains(s, p) ==> t == s
    decreases |s|
  {
    if |s| == 0 then []
    else if StartsWith(s, p) then r + ReplaceAll(s[|p|..], p, r)
    else [s[0]] + ReplaceAll(s[1..], p, r)
  }

  /** Replacement leaves alone a prefix in which no occurrence starts. */
  lemma {:induction false} ReplaceAllSkip(x: string, y: string, p: string, r: string)
    requires p != []
    requires forall k :: 0 <= k < |x| ==> !OccursAt(x + y, p, k)
    ensures ReplaceAll(x + y, p, r) == x + ReplaceAll(y, p, r)
    decreases |x|
  {
    if |x| > 0 {
      var s := x + y;
      assert !StartsWith(s, p) by { assert !OccursAt(s, p, 0); }
      assert s[1..] == x[1..] + y;
      forall k | 0 <= k < |x| - 1 ensures !OccursAt(x[1..] + y, p, k) {
        OccursAtTail(s, p, k + 1);
      }
      ReplaceAllSkip(x[1..], y, p, r);
      assert [x[0]] + (x[1..] + ReplaceAll(y, p, r)) == x + ReplaceAll(y, p, r);
    } else {
      assert x + y == y;
    }
  }

  /** `g` ends `w` and occurs nowhere else in it. */
  predicate EndMarked(w: string, g: char) {
    |w| > 0 && w[|w| - 1] == g && g !in w[..|w| - 1]
  }

  /** `a` is a suffix of `b`. */
  predicate IsSuffix(a: string, b: string) {
    |a| <= |b| && b[|b| - |a|..] == a
  }

  lemma StartsWithOccurs(t: string, w: string)
    ensures StartsWith(t, w) <==> OccursAt(t, w, 0)
  {
    if |w| <= |t| {
      assert t[..|w|] == t[0..|w|];
    }
  }

  lemma StartsWithCons(t: string, w: string)
    requires |t| > 0 && |w| > 0
    ensures StartsWith(t, w) <==> t[0] == w[0] && StartsWith(t[1..], w[1..])
  {
    if |w| <= |t| {
      if StartsWith(t, w) {
        assert t[1..][..|w| - 1] == t[..|w|][1..];
      }
      if t[0] == w[0] && StartsWith(t[1..], w[1..]) {
        assert t[..|w|] == [t[0]] + t[1..][..|w| - 1];
        assert w == [w[0]] + w[1..];
      }
    }
  }

  lemma OccursShift(s: string, j: int, z: string, k: int)
    requires 0 <= j <= |s|
    ensures OccursAt(s[j..], z, k) ==> OccursAt(s, z, k + j)
  {
    if OccursAt(s[j..], z, k) {
      assert s[j..][k..k + |z|] == s[k + j..k + j + |z|];
    }
  }

  lemma ContainsDrop(s: string, j: int, z: string)
    requires 0 <= j <= |s|
    ensures Contains(s[j..], z) ==> Contains(s, z)
  {
    ContainsOccurs(s[j..], z);
    ContainsOccurs(s, z);
    if k :| OccursAt(s[j..], z, k) {
      OccursShift(s, j, z, k);
    }
  }

  /** Facts about an occurrence of `z` that starts inside the head `y` of `y + rest`. */
  lemma OccursInHead(y: string, rest: string, z: string, k: int)
    requires 0 <= k < |y| && |z| > 0
    ensures OccursAt(y + rest, z, k) && k + |z| <= |y| ==>
      y[k + |z| - 1] == z[|z| - 1] && y[k..k + |z|] == z
    ensures OccursAt(y + rest, z, k) && k + |z| > |y| ==> z[|y| - 1 - k] == y[|y| - 1]
  {
    var t := y + rest;
    if k + |z| <= |t| {
      if k + |z| <= |y| {
        assert t[k..k + |z|] == y[k..k + |z|];
      } else {
        assert t[k..k + |z|][|y| - 1 - k] == t[|y| - 1];
      }
    }
  }

  /**
   * When `y` and `z` both end with a marker character found nowhere else in them,
   * `z` can start inside `y + rest` at an index `k < |y|` only as the suffix `y[k..]`.
   */
  lemma MarkedNotInside(y: string, rest: string, z: string, g: char, k: int)
    requires EndMarked(y, g) && EndMarked(z, g)
    requires 0 <= k < |y|
    requires k + |z| == |y| ==> y[k..] != z
    ensures !OccursAt(y + rest, z, k)
  {
    OccursInHead(y, rest, z, k);
    if k + |z| < |y| {
      assert y[k + |z| - 1] in y[..|y| - 1];
    }
    if k + |z| > |y| && |y| - 1 - k < |z| - 1 {
      assert z[|y| - 1 - k] in z[..|z| - 1];
    }
    if k + |z| == |y| {
      assert y[k..k + |z|] == y[k..];
    }
  }

  lemma EndMarkedTail(w: string, g: char)
    requires EndMarked(w, g) && |w| > 1
    ensures EndMarked(w[1..], g)
  {
    assert w[1..][..|w| - 2] == w[..|w| - 1][1..];
  }

  lemma SuffixOfTail(a: string, w: string)
    requires |w| > 0
    ensures IsSuffix(a, w[1..]) ==> IsSuffix(a, w)
  {
    if IsSuffix(a, w[1..]) {
      assert w[1..][|w| - 1 - |a|..] == w[|w| - |a|..];
    }
  }

  /**
   * Replacing `x` by an end-marked `y` creates no new prefix `w` (end-marked with the
   * same character, `y` not a suffix of it): a result starting with `w` comes from
   * an input that starts with `w` and not with `x`.
   */
  lemma {:induction false} ReplacedPrefix(s: string, x: string, y: string, w: string, g: char)
    requires x != [] && EndMarked(y, g) && EndMarked(w, g) && !IsSuffix(y, w)
    ensures StartsWith(ReplaceAll(s, x, y), w) ==> StartsWith(s, w) && !StartsWith(s, x)
    decreases |s|
  {
    if |s| > 0 {
      var t := ReplaceAll(s, x, y);
      if StartsWith(s, x) {
        var rest := ReplaceAll(s[|x|..], x, y);
        assert y[0..] == y;
        MarkedNotInside(y, rest, w, g, 0);
        StartsWithOccurs(y + rest, w);
      } else {
        var rest := ReplaceAll(s[1..], x, y);
        assert t == [s[0]] + rest;
        assert t[0] == s[0] && t[1..] == rest;
        StartsWithCons(t, w);
        StartsWithCons(s, w);
        if |w| > 1 {
          EndMarkedTail(w, g);
          SuffixOfTail(y, w);
          ReplacedPrefix(s[1..], x, y, w[1..], g);
        }
      }
    }
  }

  /** An occurrence in `y + rest` that cannot start inside `y` lies in `rest`. */
  lemma {:induction false} ContainsPastHead(y: string, rest: string, z: string)
    requires forall k :: 0 <= k < |y| ==> !OccursAt(y + rest, z, k)
    ensures Contains(y + rest, z) ==> Contains(rest, z)
    decreases |y|
  {
    if |y| > 0 {
      var t := y + rest;
      assert t[1..] == y[1..] + rest;
      StartsWithOccurs(t, z);
      forall k | 0 <= k < |y| - 1 ensures !OccursAt(y[1..] + rest, z, k) {
        OccursAtTail(t, z, k + 1);
      }
      ContainsPastHead(y[1..], rest, z);
    } else {
      assert y + rest == rest;
    }
  }

  /**
   * Replacing `x` by `y` creates no occurrence of `z` when `y` and `z` end with the
   * same marker character and neither is a suffix of the other; in particular, when
   * `z` is `x` itself, no occurrence of `x` survives.
   */
  lemma {:induction false} ReplacedContains(s: string, x: string, y: string, z: string, g: char)
    requires x != [] && EndMarked(y, g) && EndMarked(z, g)
    requires !IsSuffix(y, z) && !IsSuffix(z, y)
    ensures Contains(ReplaceAll(s, x, y), z) ==> Contains(s, z) && z != x
    decreases |s|
  {
    if |s| > 0 {
      var t := ReplaceAll(s, x, y);
      if StartsWith(s, x) {
        var rest := ReplaceAll(s[|x|..], x, y);
        forall k | 0 <= k < |y| ensures !OccursAt(y + rest, z, k) {
          if k + |z| == |y| {
            assert y[k..] == y[|y| - |z|..];
          }
          MarkedNotInside(y, rest, z, g, k);
        }
        ContainsPastHead(y, rest, z);
        ReplacedContains(s[|x|..], x, y, z, g);
        ContainsDrop(s, |x|, z);
      } else {
        var rest := ReplaceAll(s[1..], x, y);
        assert t == [s[0]] + rest;
        assert t[1..] == rest;
        ReplacedPrefix(s, x, y, z, g);
        ReplacedContains(s[1..], x, y, z, g);
        ContainsDrop(s, 1, z);
      }
    }
  }

  /** `s.split(c)`: the pieces between separators, empty pieces kept. */
  function Split(s: string, c: char): (parts: seq<string>)
    ensures |parts| >= 1
    decreases |s|
  {
    if |s| == 0 then [""]
    else
      var rest := Split(s[1..], c);
      if s[0] == c then [""] + rest else [[s[0]] + rest[0]] + rest[1..]
  }

  /** No piece holds the separator. */
  lemma {:induction false} SplitPiecesClean(s: string, c: char)
    ensures forall i :: 0 <= i < |Split(s, c)| ==> c !in Split(s, c)[i]
    decreases |s|
  {
    if |s| > 0 {
      SplitPiecesClean(s[1..], c);
    }
  }

  /** `parts.joinToString(c)` */
  function Join(parts: seq<string>, c: char): string
    requires |parts| >= 1
    decreases |parts|
  {
    if |parts| == 1 then parts[0] else parts[0] + [c] + Join(parts[1..], c)
  }

  /** A piece without the separator splits into itself. */
  lemma {:induction false} SplitSingle(s: string, c: char)
    requires c !in s
    ensures Split(s, c) == [s]
    decreases |s|
  {
    if |s| > 0 {
      SplitSingle(s[1..], c);
      assert [s[0]] + s[1..] == s;
    }
  }

  /** One step of `Split`. */
  lemma SplitCons(x: char, t: string, c: char)
    ensures Split([x] + t, c) ==
      if x == c then [""] + Split(t, c) else [[x] + Split(t, c)[0]] + Split(t, c)[1..]
  {
    assert ([x] + t)[1..] == t;
  }

  lemma AppendAssocSeq(p: seq<string>, q: seq<string>, r: seq<string>)
    ensures p + q + r == p + (q + r)
  {
  }

  /** Splitting distributes over a separator: `split(a + c + b) == split(a) + split(b)`. */
  lemma {:induction false} SplitAround(a: string, b: string, c: char)
    ensures Split(a + [c] + b, c) == Split(a, c) + Split(b, c)
    decreases |a|
  {
    if |a| == 0 {
      assert a + [c] + b == [c] + b;
      SplitCons(c, b, c);
    } else {
      var x, a' := a[0], a[1..];
      var t := a' + [c] + b;
      assert a + [c] + b == [x] + t;
      assert a == [x] + a';
      var ra, rb := Split(a', c), Split(b, c);
      SplitAround(a', b, c);
      assert Split(t, c) == ra + rb;
      SplitCons(x, t, c);
      SplitCons(x, a', c);
      if x == c {
        assert Split(a + [c] + b, c) == [""] + (ra + rb);
        assert Split(a, c) == [""] + ra;
        AppendAssocSeq([""], ra, rb);
      } else {
        assert (ra + rb)[0] == ra[0];
        assert (ra + rb)[1..] == ra[1..] + rb;
        assert Split(a + [c] + b, c) == [[x] + ra[0]] + (ra[1..] + rb);
        assert Split(a, c) == [[x] + ra[0]] + ra[1..];
        AppendAssocSeq([[x] + ra[0]], ra[1..], rb);
      }
    }
  }

  /** Joining the pieces gives back the string. */
  lemma {:induction false} JoinSplit(s: string, c: char)
    ensures Join(Split(s, c), c) == s
    decreases |s|
  {
    if |s| > 0 {
      JoinSplit(s[1..], c);
      var rest := Split(s[1..], c);
      if s[0] == c {
        assert Split(s, c)[1..] == rest;
      } else {
        var parts := Split(s, c);
        if |rest| == 1 {
          assert [s[0]] + s[1..] == s;
        } else {
          assert parts[1..] == rest[1..];
          assert Join(rest, c) == rest[0] + [c] + Join(rest[1..], c);
          assert s == [s[0]] + s[1..];
        }
      }
    }
  }

  /** Kotlin's `Char.isWhitespace()`: Java whitespace or a Unicode space character. */
  predicate IsWhitespace(ch: char) {
    var c := ch as int;
    (0x09 <= c <= 0x0D) || (0x1C <= c <= 0x20) || c == 0xA0 || c == 0x1680
    || (0x2000 <= c <= 0x200A) || c == 0x2028 || c == 0x2029 || c == 0x202F
    || c == 0x205F || c == 0x3000
  }

  /** `s.isBlank()` */
  predicate IsBlank(s: string) {
    forall i :: 0 <= i < |s| ==> IsWhitespace(s[i])
  }

  /** Decimal digits of a natural number, as `Long.toString` writes them. */
  function NatToString(n: nat): (s: string)
    ensures |s| >= 1
    ensures forall i :: 0 <= i < |s| ==> '0' <= s[i] <= '9'
    decreases n
  {
    if n < 10 then [Digit(n)] else NatToString(n / 10) + [Digit(n % 10)]
  }

  function Digit(d: nat): (c: char)
    requires d < 10
  {
    (48 + d) as char
  }

  /** `Long.toString`, with a leading minus for negative values. */
  function IntToString(n: int): string {
    if n < 0 then "-" + NatToString(-n) else NatToString(n)
  }

  predicate AllDigits(s: string) {
    forall i :: 0 <= i < |s| ==> '0' <= s[i] <= '9'
  }

  /** The value of a string of decimal digits, most significant first. */
  function DigitsValue(s: string): nat
    requires AllDigits(s)
    decreases |s|
  {
    if s == [] then 0 else DigitsValue(s[..|s| - 1]) * 10 + (s[|s| - 1] as int - 48)
  }

  lemma {:induction false} DigitsOfNat(n: nat)
    ensures DigitsValue(NatToString(n)) == n
    decreases n
  {
    if n >= 10 {
      var s := NatToString(n);
      assert s[..|s| - 1] == NatToString(n / 10);
      DigitsOfNat(n / 10);
    }
  }

  const LongMin: int := -0x8000_0000_0000_0000
  const LongMax: int := 0x7FFF_FFFF_FFFF_FFFF

  /**
   * `s.toLong()`: an optional sign followed by at least one decimal digit,
   * within the 64-bit range; the NumberFormatException is `None`.
   */
  function ToLong(s: string): (r: Option<int>)
    ensures r.Some? ==> LongMin <= r.value <= LongMax
    ensures r.Some? ==> |s| > 0
    ensures s == [] || s == "-" || s == "+" ==> r.None?
  {
    var body := if |s| > 0 && (s[0] == '-' || s[0] == '+') then s[1..] else s;
    if body == [] || !AllDigits(body) then None
    else
      var d: int := DigitsValue(body);
      var v := if |s| > 0 && s[0] == '-' then -d else d;
      if LongMin <= v <= LongMax then Some(v) else None
  }

  lemma ToLongDigits(n: nat)
    requires n <= LongMax
    ensures ToLong(IntToString(n)) == Some(n)
  {
    var t := NatToString(n);
    DigitsOfNat(n);
    assert '0' <= t[0] <= '9';
    assert IntToString(n) == t;
  }

  lemma ToLongNegated(n: int)
    requires LongMin <= n < 0
    ensures ToLong(IntToString(n)) == Some(n)
  {
    var t := NatToString(-n);
    DigitsOfNat(-n);
    var s := "-" + t;
    assert s[0] == '-' && s[1..] == t;
    assert IntToString(n) == s;
  }

  /** `toString` then `toLong` gives every 64-bit value back. */
  lemma LongRoundTrip(n: int)
    requires LongMin <= n <= LongMax
    ensures ToLong(IntToString(n)) == Some(n)
  {
    if n < 0 { ToLongNegated(n); } else { ToLongDigits(n); }
  }

  /** The UTF-16 code units Java stores for `s` (surrogate pairs above U+FFFF). */
  function Utf16(s: string): (units: seq<int>)
    ensures forall i :: 0 <= i < |units| ==> 0 <= units[i] < 0x1_0000
    ensures |units| >= |s|
    decreases |s|
  {
    if |s| == 0 then []
    else
      var c := s[0] as int;
      var head := if c < 0x1_0000 then [c]
        else [0xD800 + (c - 0x1_0000) / 0x400, 0xDC00 + (c - 0x1_0000) % 0x400];
      head + Utf16(s[1..])
  }

  /** The unsigned 32-bit accumulator of `String.hashCode`: `h = 31 * h + unit`, wrapping. */
  function HashAccumulate(units: seq<int>): (h: int)
    ensures 0 <= h < 0x1_0000_0000
    decreases |units|
  {
    if |units| == 0 then 0
    else (31 * HashAccumulate(units[..|units| - 1]) + units[|units| - 1]) % 0x1_0000_0000
  }

  /** Java's `String.hashCode()`, a signed 32-bit value. */
  function JavaHashCode(s: string): (h: int)
    ensures -0x8000_0000 <= h < 0x8000_0000
  {
    var u := HashAccumulate(Utf16(s));
    if u >= 0x8000_0000 then u - 0x1_0000_0000 else u
  }
}
