/** Strings as the source's standard library sees them: search, replacement, trimming
and decimal numerals.  Offsets count characters; the tags searched for are ASCII, so
a match never splits a character. */
module Text {
  import opened Options
  import opened Sequences

  // ---------- Searching ----------

  /** `p` occurs somewhere in `s`. */
  predicate Contains(s: string, p: string) {
    p <= s || (s != [] && Contains(s[1..], p))
  }

  /** Offset of the first occurrence of `p`, or -1. */
  function Find(s: string, p: string): (i: int)
    ensures i == -1 || 0 <= i <= |s| - |p|
  {
    if p <= s then 0
    else if s == [] then -1
    else
      var i := Find(s[1..], p);
      if i < 0 then -1 else i + 1
  }

  /** Offset of the last occurrence of `p`, or -1. */
  function RFind(s: string, p: string): (i: int)
    ensures i == -1 || 0 <= i <= |s| - |p|
  {
    if s == [] then if p == [] then 0 else -1
    else
      var i := RFind(s[1..], p);
      if i >= 0 then i + 1 else if p <= s then 0 else -1
  }

  lemma {:induction false} FindSound(s: string, p: string)
    ensures Find(s, p) >= 0 ==> p <= s[Find(s, p)..]
  {
    if !(p <= s) && s != [] {
      FindSound(s[1..], p);
      var i := Find(s[1..], p);
      assert i >= 0 ==> s[1..][i..] == s[i + 1..];
    }
  }

  lemma {:induction false} FindComplete(s: string, p: string)
    ensures Find(s, p) >= 0 <==> Contains(s, p)
  {
    if !(p <= s) && s != [] {
      FindComplete(s[1..], p);
    }
  }

  lemma {:induction false} RFindSound(s: string, p: string)
    ensures RFind(s, p) >= 0 ==> p <= s[RFind(s, p)..]
  {
    if s != [] {
      RFindSound(s[1..], p);
      if RFind(s[1..], p) >= 0 {
        DropDrop(s, 1, RFind(s[1..], p));
      } else {
        assert s[0..] == s;
      }
    }
  }

  /** Both searches return an occurrence, and the first succeeds exactly when there is one. */
  lemma FindIsOccurrence(s: string, p: string)
    ensures Find(s, p) >= 0 ==> p <= s[Find(s, p)..]
    ensures Find(s, p) >= 0 <==> Contains(s, p)
    ensures RFind(s, p) >= 0 ==> p <= s[RFind(s, p)..]
  {
    FindSound(s, p);
    FindComplete(s, p);
    RFindSound(s, p);
  }

  /** The character `c` does not occur in `s`. */
  predicate Free(s: string, c: char) {
    forall k | 0 <= k < |s| :: s[k] != c
  }

  lemma {:induction false} ContainsAt(s: string, p: string, i: nat)
    requires i <= |s| && p <= s[i..]
    ensures Contains(s, p)
  {
    if i > 0 {
      assert s[1..][i - 1..] == s[i..];
      ContainsAt(s[1..], p, i - 1);
    } else {
      assert s[0..] == s;
    }
  }

  /** Everything before the first occurrence is free of it. */
  lemma {:induction false} FindFirst(s: string, p: string, j: nat)
    requires j <= |s| && p <= s[j..]
    ensures 0 <= Find(s, p) <= j
  {
    if j == 0 {
      assert s[0..] == s;
    } else if !(p <= s) {
      assert s[1..][j - 1..] == s[j..];
      FindFirst(s[1..], p, j - 1);
    }
  }

  lemma {:induction false} RFindLast(s: string, p: string, j: nat)
    requires j <= |s| && p <= s[j..]
    ensures RFind(s, p) >= j
  {
    if j == 0 {
      assert s[0..] == s;
      if s != [] && RFind(s[1..], p) < 0 { }
    } else {
      assert s[1..][j - 1..] == s[j..];
      RFindLast(s[1..], p, j - 1);
    }
  }

  // ---------- Replacing ----------

  /** Replace every non-overlapping occurrence of `p` by `r`, left to right. */
  function ReplaceAll(s: string, p: string, r: string): string
    requires p != []
  {
    if s == [] then []
    else if p <= s then r + ReplaceAll(s[|p|..], p, r)
    else [s[0]] + ReplaceAll(s[1..], p, r)
  }

  // ---------- Trimming ----------

  function TrimStart(ws: char -> bool, s: string): string {
    if s != [] && ws(s[0]) then TrimStart(ws, s[1..]) else s
  }

  function TrimEnd(ws: char -> bool, s: string): string {
    if s != [] && ws(s[|s| - 1]) then TrimEnd(ws, s[..|s| - 1]) else s
  }

  function Trim(ws: char -> bool, s: string): string {
    TrimEnd(ws, TrimStart(ws, s))
  }

  /** No whitespace at either end. */
  predicate Trimmed(ws: char -> bool, s: string) {
    s == [] || (!ws(s[0]) && !ws(s[|s| - 1]))
  }

  predicate Blank(ws: char -> bool, s: string) {
    s == [] || (ws(s[0]) && Blank(ws, s[1..]))
  }

  lemma {:induction false} TrimStartProps(ws: char -> bool, s: string)
    ensures var t := TrimStart(ws, s);
            |t| <= |s| && t == s[|s| - |t|..] && Blank(ws, s[..|s| - |t|]) && (t == [] || !ws(t[0]))
  {
    if s != [] && ws(s[0]) {
      TrimStartProps(ws, s[1..]);
      var t := TrimStart(ws, s[1..]);
      assert s[..|s| - |t|][1..] == s[1..][..|s| - 1 - |t|];
    }
  }

  lemma {:induction false} TrimEndProps(ws: char -> bool, s: string)
    ensures var t := TrimEnd(ws, s);
            |t| <= |s| && t == s[..|t|] && (t == [] || !ws(t[|t| - 1]))
    ensures s != [] && !ws(s[0]) ==> TrimEnd(ws, s) != []
    decreases |s|
  {
    if s != [] && ws(s[|s| - 1]) {
      TrimEndProps(ws, s[..|s| - 1]);
    }
  }

  lemma TrimIsTrimmed(ws: char -> bool, s: string)
    ensures Trimmed(ws, Trim(ws, s))
    ensures Trimmed(ws, s) ==> Trim(ws, s) == s
    ensures exists i, j | 0 <= i <= j <= |s| :: Trim(ws, s) == s[i..j]
  {
    var t := TrimStart(ws, s);
    TrimStartProps(ws, s);
    TrimEndProps(ws, t);
    var u := TrimEnd(ws, t);
    var i := |s| - |t|;
    assert u == s[i..i + |u|];
    if u != [] {
      assert u[0] == t[0];
    }
  }

  lemma {:induction false} TrimStartSkips(ws: char -> bool, w: string, s: string)
    requires Blank(ws, w)
    ensures TrimStart(ws, w + s) == TrimStart(ws, s)
  {
    if w == [] {
      assert w + s == s;
    } else {
      assert (w + s)[1..] == w[1..] + s;
      TrimStartSkips(ws, w[1..], s);
    }
  }

  lemma {:induction false} BlankSplit(ws: char -> bool, a: string, b: string)
    ensures Blank(ws, a + b) <==> Blank(ws, a) && Blank(ws, b)
  {
    if a == [] {
      assert a + b == b;
    } else {
      assert (a + b)[1..] == a[1..] + b;
      BlankSplit(ws, a[1..], b);
    }
  }

  lemma {:induction false} TrimEndSkips(ws: char -> bool, s: string, w: string)
    requires Blank(ws, w)
    ensures TrimEnd(ws, s + w) == TrimEnd(ws, s)
    decreases |w|
  {
    if w == [] {
      assert s + w == s;
    } else {
      var v := w[..|w| - 1];
      assert w == v + [w[|w| - 1]];
      BlankSplit(ws, v, [w[|w| - 1]]);
      assert (s + w)[..|s + w| - 1] == s + v;
      TrimEndSkips(ws, s, v);
    }
  }

  /** Trimming stops at text that is not blank. */
  lemma {:induction false} TrimStartStops(ws: char -> bool, a: string, y: string)
    requires !Blank(ws, a) || (y != [] && !ws(y[0]))
    ensures TrimStart(ws, a + y) == TrimStart(ws, a) + y
  {
    if a == [] {
      assert a + y == y;
    } else {
      assert (a + y)[1..] == a[1..] + y;
      if ws(a[0]) {
        TrimStartStops(ws, a[1..], y);
      }
    }
  }

  lemma {:induction false} TrimEndStops(ws: char -> bool, y: string, b: string)
    requires !Blank(ws, b) || (y != [] && !ws(y[|y| - 1]))
    ensures TrimEnd(ws, y + b) == y + TrimEnd(ws, b)
    decreases |b|
  {
    if b == [] {
      assert y + b == y;
    } else {
      var front := b[..|b| - 1];
      assert (y + b)[..|y + b| - 1] == y + front;
      if ws(b[|b| - 1]) {
        assert b == front + [b[|b| - 1]];
        BlankSplit(ws, front, [b[|b| - 1]]);
        TrimEndStops(ws, y, front);
      }
    }
  }

  lemma {:induction false} TrimAround(ws: char -> bool, a: string, x: string, b: string)
    requires x != [] && Trimmed(ws, x)
    ensures Trim(ws, a + x + b) == TrimStart(ws, a) + x + TrimEnd(ws, b)
  {
    TrimStartStops(ws, a, x + b);
    assert a + x + b == a + (x + b);
    var front := TrimStart(ws, a) + x;
    assert TrimStart(ws, a) + (x + b) == front + b;
    TrimEndStops(ws, front, b);
  }

  /** The ends can be trimmed in either order. */
  lemma TrimInsideOut(ws: char -> bool, s: string)
    ensures TrimStart(ws, TrimEnd(ws, s)) == Trim(ws, s)
  {
    TrimStartProps(ws, s);
    var t := TrimStart(ws, s);
    var w := s[..|s| - |t|];
    assert s == w + t;
    if t == [] {
      TrimEndSkips(ws, [], w);
      assert [] + w == s;
    } else {
      TrimEndProps(ws, t);
      TrimEndStops(ws, w, t);
      TrimStartSkips(ws, w, TrimEnd(ws, t));
    }
  }

  lemma TrimEndShrinks(ws: char -> bool, s: string)
    requires s != []
    ensures |TrimEnd(ws, s)| <= |s| && (|TrimEnd(ws, s)| == |s| <==> !ws(s[|s| - 1]))
  {
    TrimEndProps(ws, s[..|s| - 1]);
  }

  /** Where `s` has ink, trimming its start alone leaves what trimming leaves and the
      whitespace at its end. */
  lemma TrimStartAlone(ws: char -> bool, s: string)
    requires !Blank(ws, s)
    ensures |TrimStart(ws, s)| >= |Trim(ws, s)| && (|TrimStart(ws, s)| == |Trim(ws, s)| <==> !ws(s[|s| - 1]))
    ensures !ws(s[|s| - 1]) ==> TrimStart(ws, s) == Trim(ws, s)
  {
    TrimStartProps(ws, s);
    BlankTrims(ws, s);
    var t := TrimStart(ws, s);
    if t != [] {
      assert t[|t| - 1] == s[|s| - 1];
      TrimEndShrinks(ws, t);
    }
  }

  lemma {:induction false} TrimEndAlone(ws: char -> bool, s: string)
    requires !Blank(ws, s)
    ensures |TrimEnd(ws, s)| >= |Trim(ws, s)| && (|TrimEnd(ws, s)| == |Trim(ws, s)| <==> !ws(s[0]))
    ensures !ws(s[0]) ==> TrimEnd(ws, s) == Trim(ws, s)
  {
    TrimStartProps(ws, s);
    var t := TrimStart(ws, s);
    var w := s[..|s| - |t|];
    assert s == w + t;
    BlankSplit(ws, w, t);
    TrimEndStops(ws, w, t);
    assert if w == [] then s == t else w[0] == s[0];
    assert w == [] ==> w + TrimEnd(ws, t) == TrimEnd(ws, t);
  }

  lemma {:induction false} BlankTrims(ws: char -> bool, s: string)
    ensures Trim(ws, s) == [] <==> Blank(ws, s)
  {
    TrimStartProps(ws, s);
    var t := TrimStart(ws, s);
    TrimEndProps(ws, t);
    if t == [] {
      assert s[..|s|] == s;
    } else {
      assert s == s[..|s| - |t|] + t;
      BlankSplit(ws, s[..|s| - |t|], t);
    }
  }

  /** Rust's `char::is_whitespace`: the Unicode White_Space property. */
  predicate RustWhitespace(c: char) {
    var n := c as int;
    0x09 <= n <= 0x0D || n == 0x20 || n == 0x85 || n == 0xA0 || n == 0x1680 || 0x2000 <= n <= 0x200A ||
    n == 0x2028 || n == 0x2029 || n == 0x202F || n == 0x205F || n == 0x3000
  }

  /** The characters ECMAScript's `String.prototype.trim` removes. */
  predicate JsWhitespace(c: char) {
    (RustWhitespace(c) && c as int != 0x85) || c as int == 0xFEFF
  }

  // ---------- Decimal numerals ----------

  function Digit(d: nat): char
    requires d < 10
  {
    '0' + d as char
  }

  predicate IsDigit(c: char) { '0' <= c <= '9' }

  /** The decimal numeral of `n`, without padding. */
  function Decimal(n: nat): (s: string)
    ensures s != [] && AllDigits(s)
  {
    if n < 10 then [Digit(n)]
    else AllDigitsConcat(Decimal(n / 10), [Digit(n % 10)]); Decimal(n / 10) + [Digit(n % 10)]
  }

  predicate AllDigits(s: string) {
    s == [] || (IsDigit(s[0]) && AllDigits(s[1..]))
  }

  lemma {:induction false} AllDigitsConcat(a: string, b: string)
    ensures AllDigits(a + b) <==> AllDigits(a) && AllDigits(b)
  {
    if a == [] {
      assert a + b == b;
    } else {
      assert (a + b)[1..] == a[1..] + b;
      AllDigitsConcat(a[1..], b);
    }
  }

  function Pow10(k: nat): nat {
    if k == 0 then 1 else 10 * Pow10(k - 1)
  }

  /** A numeral has at most `k` digits exactly when the number is below `10^k`. */
  lemma {:induction false} DecimalLength(n: nat, k: nat)
    requires k > 0
    ensures |Decimal(n)| <= k <==> n < Pow10(k)
    decreases n
  {
    if n >= 10 {
      if k > 1 {
        DecimalLength(n / 10, k - 1);
        assert n / 10 < Pow10(k - 1) <==> n < 10 * Pow10(k - 1);
      } else {
        assert Pow10(1) == 10 * Pow10(0) == 10;
      }
    } else {
      Pow10Positive(k - 1);
      assert Pow10(k) >= 10;
    }
  }

  lemma {:induction false} Pow10Positive(k: nat)
    ensures Pow10(k) >= 1
  {
    if k > 0 { Pow10Positive(k - 1); }
  }
}
