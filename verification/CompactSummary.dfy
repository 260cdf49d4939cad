/** `format_compact_summary`: peel drafting scratchpad off the compaction model's raw
output, defuse control tokens quoted in the body, collapse blank lines and trim. */
module CompactSummary {
  import opened Sequences
  import opened Text

  const ANALYSIS_OPEN := "<analysis>"
  const ANALYSIS_CLOSE := "</analysis>"
  const SUMMARY_OPEN := "<summary>"
  const SUMMARY_CLOSE := "</summary>"
  const REQUEST_OPEN := "<summary_request>"
  const REQUEST_CLOSE := "</summary_request>"

  /** The zero-width space that breaks a tag. */
  const ZW: char := '\U{200B}'
  const SUMMARY_LABEL := "Summary:\n"
  const TRIPLE := "\n\n\n"

  function Strip(s: string): string { Trim(RustWhitespace, s) }

  // ---------- Defusing one token ----------

  /** A tag: `<` followed by printable ASCII without another `<`. */
  predicate IsTag(p: string) {
    |p| >= 2 && p[0] == '<' && forall k | 0 < k < |p| :: '!' <= p[k] <= '~' && p[k] != '<'
  }

  function Defused(p: string): string
    requires p != []
  {
    [p[0], ZW] + p[1..]
  }

  function Defuse(s: string, p: string): string
    requires p != []
  {
    ReplaceAll(s, p, Defused(p))
  }

  /** The six control tokens, in the order the source replaces them: closers first. */
  const TAGS: seq<string> := [SUMMARY_CLOSE, SUMMARY_OPEN, ANALYSIS_CLOSE, ANALYSIS_OPEN, REQUEST_CLOSE, REQUEST_OPEN]

  /** Replace the given tags one after the other. */
  function DefuseEach(s: string, tags: seq<string>): string
    requires AllTags(tags)
    decreases |tags|
  {
    if tags == [] then s else DefuseEach(Defuse(s, tags[0]), tags[1..])
  }

  function Neutralize(s: string): string {
    TagsAreTags();
    DefuseEach(s, TAGS)
  }

  predicate AllTags(tags: seq<string>) {
    tags == [] || (IsTag(tags[0]) && AllTags(tags[1..]))
  }

  predicate NoneOf(s: string, tags: seq<string>) {
    tags == [] || (!Contains(s, tags[0]) && NoneOf(s, tags[1..]))
  }

  /** No control token occurs in `s`. */
  predicate NoControlToken(s: string) { NoneOf(s, TAGS) }

  lemma SummaryTags()
    ensures IsTag(SUMMARY_CLOSE) && IsTag(SUMMARY_OPEN)
  {
  }

  lemma AnalysisTags()
    ensures IsTag(ANALYSIS_CLOSE) && IsTag(ANALYSIS_OPEN)
  {
  }

  lemma RequestTags()
    ensures IsTag(REQUEST_CLOSE) && IsTag(REQUEST_OPEN)
  {
  }

  lemma TagsAreTags()
    ensures AllTags(TAGS)
  {
    SummaryTags();
    AnalysisTags();
    RequestTags();
    TagList();
    assert AllTags(TagsFrom(5)) && AllTags(TagsFrom(4)) && AllTags(TagsFrom(3));
    assert AllTags(TagsFrom(2)) && AllTags(TagsFrom(1)) && AllTags(TagsFrom(0));
  }

  function TagsFrom(k: nat): seq<string>
    requires k <= |TAGS|
  {
    TAGS[k..]
  }

  lemma TagList()
    ensures TagsFrom(0) == TAGS && TagsFrom(6) == []
    ensures forall k | 0 <= k < 6 :: TagsFrom(k) != [] && TagsFrom(k)[1..] == TagsFrom(k + 1) && TagsFrom(k)[0] == TAGS[k]
  {
  }

  /** The token test, spelled out. */
  lemma NoControlTokenMeans(s: string)
    ensures NoControlToken(s) <==>
            && !Contains(s, SUMMARY_CLOSE) && !Contains(s, SUMMARY_OPEN)
            && !Contains(s, ANALYSIS_CLOSE) && !Contains(s, ANALYSIS_OPEN)
            && !Contains(s, REQUEST_CLOSE) && !Contains(s, REQUEST_OPEN)
  {
    TagList();
    assert NoneOf(s, TagsFrom(5)) <==> !Contains(s, TAGS[5]);
    assert NoneOf(s, TagsFrom(4)) <==> !Contains(s, TAGS[4]) && NoneOf(s, TagsFrom(5));
    assert NoneOf(s, TagsFrom(3)) <==> !Contains(s, TAGS[3]) && NoneOf(s, TagsFrom(4));
    assert NoneOf(s, TagsFrom(2)) <==> !Contains(s, TAGS[2]) && NoneOf(s, TagsFrom(3));
    assert NoneOf(s, TagsFrom(1)) <==> !Contains(s, TAGS[1]) && NoneOf(s, TagsFrom(2));
  }

  /** Two tags never overlap: each has its only `<` at the front. */
  lemma TagsDoNotOverlap(s: string, p: string, q: string, i: nat, j: nat)
    requires IsTag(p) && IsTag(q) && i < j <= |s| && p <= s[i..] && q <= s[j..]
    ensures i + |p| <= j
  {
    assert s[j..][0] == s[j];
    assert forall k | i < k < i + |p| :: s[k] == s[i..][k - i] == p[k - i];
  }

  /** The same replacement, one character at a time. */
  function Mark(s: string, p: string): string {
    if s == [] then [] else (if p <= s then [s[0], ZW] else [s[0]]) + Mark(s[1..], p)
  }

  lemma {:induction false} MarkSkips(a: string, b: string, p: string)
    requires IsTag(p) && Free(a, '<')
    ensures Mark(a + b, p) == a + Mark(b, p)
  {
    if a == [] {
      assert a + b == b;
    } else {
      assert (a + b)[1..] == a[1..] + b;
      MarkSkips(a[1..], b, p);
    }
  }

  lemma {:induction false} DefuseIsMark(s: string, p: string)
    requires IsTag(p)
    ensures Defuse(s, p) == Mark(s, p)
    decreases |s|
  {
    if s != [] {
      if p <= s {
        DefuseIsMark(s[|p|..], p);
        MarkTag(s, p);
      } else {
        DefuseIsMark(s[1..], p);
      }
    }
  }

  lemma MarkTag(s: string, p: string)
    requires IsTag(p) && p <= s
    ensures Mark(s, p) == Defused(p) + Mark(s[|p|..], p)
  {
    var q, rest := p[1..], s[|p|..];
    assert s[1..] == q + rest && s[0] == p[0];
    MarkSkips(q, rest, p);
    Associate([p[0], ZW], q, Mark(rest, p));
  }

  /** Marking creates no new prefix that is free of zero-width spaces. */
  lemma {:induction false} MarkPrefix(s: string, p: string, x: string)
    requires Free(x, ZW) && x <= Mark(s, p)
    ensures x <= s
  {
    if s != [] && x != [] {
      var m := Mark(s[1..], p);
      if p <= s {
        assert Mark(s, p)[1] == ZW;
      } else {
        assert Mark(s, p) == [s[0]] + m;
        assert x[1..] <= m;
        MarkPrefix(s[1..], p, x[1..]);
      }
    }
  }

  lemma {:induction false} MarkContains(s: string, p: string, x: string)
    requires x != [] && Free(x, ZW) && Contains(Mark(s, p), x)
    ensures Contains(s, x)
  {
    var m := Mark(s, p);
    if x <= m {
      MarkPrefix(s, p, x);
    } else if s != [] {
      var t := Mark(s[1..], p);
      if p <= s {
        assert m[1..] == [ZW] + t;
        assert m[1..][1..] == t;
        assert m[1..][0] == ZW && x[0] != ZW;
      } else {
        assert m[1..] == t;
      }
      MarkContains(s[1..], p, x);
    }
  }

  lemma ContainsCons(x: char, t: string, q: string)
    ensures Contains([x] + t, q) <==> q <= [x] + t || Contains(t, q)
  {
    assert ([x] + t)[1..] == t;
  }

  /** A broken tag is no tag. */
  lemma BrokenTag(x: char, t: string, p: string)
    requires IsTag(p) && !Contains(t, p)
    ensures !Contains([x] + ([ZW] + t), p)
  {
    ContainsCons(ZW, t, p);
    ContainsCons(x, [ZW] + t, p);
    assert ([x] + ([ZW] + t))[1] == ZW && p[1] != ZW;
  }

  lemma MarkStep(s: string, p: string)
    requires s != []
    ensures var t := Mark(s[1..], p); Mark(s, p) == if p <= s then [s[0]] + ([ZW] + t) else [s[0]] + t
  {
  }

  lemma {:induction false} MarkRemoves(s: string, p: string)
    requires IsTag(p)
    ensures !Contains(Mark(s, p), p)
  {
    if s != [] {
      var t := Mark(s[1..], p);
      MarkRemoves(s[1..], p);
      MarkStep(s, p);
      if p <= s {
        BrokenTag(s[0], t, p);
      } else {
        if p <= Mark(s, p) { MarkPrefix(s, p, p); }
        ContainsCons(s[0], t, p);
      }
    }
  }

  lemma {:induction false} MarkIdentity(s: string, p: string)
    requires !Contains(s, p)
    ensures Mark(s, p) == s
  {
    if s != [] { MarkIdentity(s[1..], p); }
  }

  /** Drop every zero-width space. */
  function Erase(s: string): string {
    if s == [] then [] else (if s[0] == ZW then [] else [s[0]]) + Erase(s[1..])
  }

  lemma EraseCons(x: char, t: string)
    ensures Erase([x] + t) == (if x == ZW then [] else [x]) + Erase(t)
  {
    assert ([x] + t)[1..] == t;
  }

  lemma {:induction false} EraseMarkStep(s: string, p: string)
    requires IsTag(p) && s != []
    ensures Erase(Mark(s, p)) == (if s[0] == ZW then [] else [s[0]]) + Erase(Mark(s[1..], p))
  {
    var t := Mark(s[1..], p);
    MarkStep(s, p);
    if p <= s {
      EraseCons(ZW, t);
      EraseCons(s[0], [ZW] + t);
    } else {
      EraseCons(s[0], t);
    }
  }

  lemma {:induction false} EraseMark(s: string, p: string)
    requires IsTag(p)
    ensures Erase(Mark(s, p)) == Erase(s)
  {
    if s != [] {
      EraseMark(s[1..], p);
      EraseMarkStep(s, p);
    }
  }

  lemma {:induction false} EraseIdentity(s: string)
    requires Free(s, ZW)
    ensures Erase(s) == s
  {
    if s != [] { EraseIdentity(s[1..]); }
  }

  lemma MarkEnds(s: string, p: string)
    requires IsTag(p) && s != []
    ensures Mark(s, p) != [] && Mark(s, p)[0] == s[0]
    ensures Mark(s, p)[|Mark(s, p)| - 1] == s[|s| - 1]
  {
    MarkLast(s, p);
  }

  lemma {:induction false} MarkLast(s: string, p: string)
    requires IsTag(p) && s != []
    ensures Mark(s, p) != [] && Mark(s, p)[|Mark(s, p)| - 1] == s[|s| - 1]
  {
    if |s| > 1 {
      MarkLast(s[1..], p);
    } else {
      assert s[1..] == [] && !(p <= s);
    }
  }

  /** Every zero-width space stands right behind a `<`; `prev` is what stands before `s`. */
  predicate Broken(prev: char, s: string)
    decreases |s|
  {
    s == [] || ((s[0] == ZW ==> prev == '<') && Broken(s[0], s[1..]))
  }

  lemma BrokenCons(prev: char, x: char, t: string)
    ensures Broken(prev, [x] + t) <==> (x == ZW ==> prev == '<') && Broken(x, t)
  {
    assert ([x] + t)[1..] == t;
  }

  lemma {:induction false} BrokenMeans(prev: char, s: string, k: nat)
    requires Broken(prev, s) && k < |s| && s[k] == ZW
    ensures (if k == 0 then prev else s[k - 1]) == '<'
    decreases |s|
  {
    if k > 0 { BrokenMeans(s[0], s[1..], k - 1); }
  }

  lemma {:induction false} FreeIsBroken(prev: char, s: string)
    requires Free(s, ZW)
    ensures Broken(prev, s)
    decreases |s|
  {
    if s != [] { FreeIsBroken(s[0], s[1..]); }
  }

  /** Marking puts them nowhere else. */
  lemma {:induction false} MarkBreaks(prev: char, s: string, p: string)
    requires IsTag(p) && Broken(prev, s)
    ensures Broken(prev, Mark(s, p))
    decreases |s|
  {
    if s != [] {
      var t := Mark(s[1..], p);
      MarkStep(s, p);
      MarkBreaks(s[0], s[1..], p);
      if p <= s {
        MarkEnds(s[1..], p);
        assert t[0] == s[1] == p[1] != ZW;
        BrokenCons(s[0], ZW, t);
        BrokenCons(prev, s[0], [ZW] + t);
      } else {
        BrokenCons(prev, s[0], t);
      }
    }
  }

  // ---------- All six tokens ----------

  ghost predicate SameText(s: string, t: string) {
    && Erase(t) == Erase(s)
    && (s == [] ==> t == [])
    && (s != [] ==> t != [] && t[0] == s[0] && t[|t| - 1] == s[|s| - 1])
  }

  lemma DefuseProps(s: string, p: string)
    requires IsTag(p)
    ensures !Contains(Defuse(s, p), p)
    ensures !Contains(s, p) ==> Defuse(s, p) == s
    ensures SameText(s, Defuse(s, p))
  {
    DefuseIsMark(s, p);
    MarkRemoves(s, p);
    EraseMark(s, p);
    if s != [] { MarkEnds(s, p); }
    if !Contains(s, p) { MarkIdentity(s, p); }
  }

  /** Text that does not contain `q` does not contain it after the replacements. */
  lemma {:induction false} DefuseKeepsOut(s: string, tags: seq<string>, q: string)
    requires AllTags(tags) && q != [] && Free(q, ZW) && !Contains(s, q)
    ensures !Contains(DefuseEach(s, tags), q)
    decreases |tags|
  {
    if tags != [] {
      DefuseIsMark(s, tags[0]);
      if Contains(Mark(s, tags[0]), q) { MarkContains(s, tags[0], q); }
      DefuseKeepsOut(Defuse(s, tags[0]), tags[1..], q);
    }
  }

  /** The replacements remove all their tags, add nothing but zero-width spaces, and
      are the identity on text without the tags. */
  lemma {:induction false} DefuseEachProps(s: string, tags: seq<string>)
    requires AllTags(tags)
    ensures NoneOf(DefuseEach(s, tags), tags)
    ensures NoneOf(s, tags) ==> DefuseEach(s, tags) == s
    ensures SameText(s, DefuseEach(s, tags))
    decreases |tags|
  {
    if tags != [] {
      var t := Defuse(s, tags[0]);
      DefuseProps(s, tags[0]);
      DefuseEachProps(t, tags[1..]);
      DefuseKeepsOut(t, tags[1..], tags[0]);
    }
  }

  lemma {:induction false} DefuseEachBreaks(prev: char, s: string, tags: seq<string>)
    requires AllTags(tags) && Broken(prev, s)
    ensures Broken(prev, DefuseEach(s, tags))
    decreases |tags|
  {
    if tags != [] {
      DefuseIsMark(s, tags[0]);
      MarkBreaks(prev, s, tags[0]);
      DefuseEachBreaks(prev, Defuse(s, tags[0]), tags[1..]);
    }
  }

  /** A quoted token is broken right behind its `<`: the zero-width spaces stand there and
      nowhere else, no token is left, erasing them gives the text back, and a text without
      tokens is left alone. */
  lemma NeutralizeMeans(s: string)
    requires Free(s, ZW)
    ensures var n := Neutralize(s);
            && (forall k | 0 <= k < |n| && n[k] == ZW :: k > 0 && n[k - 1] == '<')
            && NoControlToken(n) && Erase(n) == s
            && (NoControlToken(s) ==> n == s)
  {
    TagsAreTags();
    DefuseEachProps(s, TAGS);
    FreeIsBroken(' ', s);
    DefuseEachBreaks(' ', s, TAGS);
    EraseIdentity(s);
    forall k | 0 <= k < |Neutralize(s)| && Neutralize(s)[k] == ZW ensures k > 0 && Neutralize(s)[k - 1] == '<' {
      BrokenMeans(' ', Neutralize(s), k);
    }
  }

  lemma {:induction false} DefuseEachSkips(a: string, b: string, tags: seq<string>)
    requires AllTags(tags) && Free(a, '<')
    ensures DefuseEach(a + b, tags) == a + DefuseEach(b, tags)
    decreases |tags|
  {
    if tags != [] {
      DefuseSkips(a, b, tags[0]);
      DefuseEachSkips(a, Defuse(b, tags[0]), tags[1..]);
    }
  }

  lemma DefuseSkips(a: string, b: string, p: string)
    requires IsTag(p) && Free(a, '<')
    ensures Defuse(a + b, p) == a + Defuse(b, p)
  {
    DefuseIsMark(a + b, p);
    DefuseIsMark(b, p);
    MarkSkips(a, b, p);
  }

  // ---------- Collapsing blank lines ----------

  function Squeeze(s: string): string { ReplaceAll(s, TRIPLE, "\n\n") }

  lemma {:induction false} SqueezeShrinks(s: string)
    ensures |Squeeze(s)| <= |s|
    ensures Contains(s, TRIPLE) ==> |Squeeze(s)| < |s|
    ensures !Contains(s, TRIPLE) ==> Squeeze(s) == s
    decreases |s|
  {
    if s != [] {
      if TRIPLE <= s {
        SqueezeShrinks(s[3..]);
      } else {
        SqueezeShrinks(s[1..]);
      }
    }
  }

  /** The loop `while contains "\n\n\n"`. */
  function Collapse(s: string): string
    decreases |s|
  {
    if Contains(s, TRIPLE) then SqueezeShrinks(s); Collapse(Squeeze(s)) else s
  }

  lemma {:induction false} SqueezePrefix(s: string, x: string)
    requires Free(x, '\n') && x <= Squeeze(s)
    ensures x <= s
  {
    if s != [] && x != [] {
      SqueezeHead(s);
      if !(TRIPLE <= s) {
        assert x[1..] <= Squeeze(s[1..]);
        SqueezePrefix(s[1..], x[1..]);
      }
    }
  }

  /** Deleting newlines next to newlines creates no newline-free text. */
  lemma {:induction false} SqueezeContains(s: string, x: string)
    requires x != [] && Free(x, '\n') && Contains(Squeeze(s), x)
    ensures Contains(s, x)
    decreases |s|
  {
    var t := Squeeze(s);
    if x <= t {
      SqueezePrefix(s, x);
    } else if s != [] {
      if TRIPLE <= s {
        var u := Squeeze(s[3..]);
        assert t == "\n\n" + u && t[1..] == "\n" + u && t[1..][1..] == u;
        assert t[1..][0] == '\n' && x[0] != '\n';
        SqueezeContains(s[3..], x);
        assert s[1..][1..][1..] == s[3..];
      } else {
        assert t[1..] == Squeeze(s[1..]);
        SqueezeContains(s[1..], x);
      }
    }
  }

  lemma {:induction false} CollapseProps(s: string, q: string)
    ensures !Contains(Collapse(s), TRIPLE)
    ensures q != [] && Free(q, '\n') && !Contains(s, q) ==> !Contains(Collapse(s), q)
    decreases |s|
  {
    if Contains(s, TRIPLE) {
      SqueezeShrinks(s);
      CollapseProps(Squeeze(s), q);
      if q != [] && Free(q, '\n') && Contains(Squeeze(s), q) { SqueezeContains(s, q); }
    }
  }

  /** No run of newlines spans the boundary between `a` and `b`. */
  predicate Separate(a: string, b: string) {
    a == [] || b == [] || a[|a| - 1] != '\n' || b[0] != '\n'
  }

  lemma TripleOnTheLeft(a: string, b: string)
    requires a != [] && Separate(a, b)
    ensures TRIPLE <= a + b <==> TRIPLE <= a
  {
    if |a| < 3 && b != [] {
      assert (a + b)[|a|] == b[0] && (a + b)[|a| - 1] == a[|a| - 1];
    }
  }

  lemma {:induction false} ContainsTripleConcat(a: string, b: string)
    requires Separate(a, b)
    ensures Contains(a + b, TRIPLE) <==> Contains(a, TRIPLE) || Contains(b, TRIPLE)
  {
    if a == [] {
      assert a + b == b;
    } else {
      TripleOnTheLeft(a, b);
      assert (a + b)[1..] == a[1..] + b;
      ContainsTripleConcat(a[1..], b);
    }
  }

  /** Squeezing works piecewise across such a boundary. */
  lemma {:induction false} SqueezeConcat(a: string, b: string)
    requires Separate(a, b)
    ensures Squeeze(a + b) == Squeeze(a) + Squeeze(b)
    decreases |a|
  {
    if a == [] {
      assert a + b == b;
    } else {
      var i := if TRIPLE <= a then 3 else 1;
      var head := if TRIPLE <= a then "\n\n" else [a[0]];
      TripleOnTheLeft(a, b);
      DropAppend(a, b, i);
      SqueezeConcat(a[i..], b);
      Associate(head, Squeeze(a[i..]), Squeeze(b));
    }
  }

  lemma SqueezeHead(s: string)
    requires s != []
    ensures Squeeze(s) != [] && Squeeze(s)[0] == s[0]
  {
  }

  lemma {:induction false} SqueezeLast(s: string)
    requires s != []
    ensures Squeeze(s) != [] && Squeeze(s)[|Squeeze(s)| - 1] == s[|s| - 1]
    decreases |s|
  {
    if TRIPLE <= s {
      if |s| > 3 { SqueezeLast(s[3..]); } else { assert Squeeze(s[3..]) == []; }
    } else if |s| > 1 {
      SqueezeLast(s[1..]);
    } else {
      assert Squeeze(s[1..]) == [];
    }
  }

  lemma {:induction false} CollapseConcat(a: string, b: string)
    requires Separate(a, b)
    ensures Collapse(a + b) == Collapse(a) + Collapse(b)
    decreases |a| + |b|
  {
    SqueezeConcat(a, b);
    ContainsTripleConcat(a, b);
    SqueezeShrinks(a);
    SqueezeShrinks(b);
    if Contains(a + b, TRIPLE) {
      if a != [] { SqueezeLast(a); }
      if b != [] { SqueezeHead(b); }
      CollapseConcat(Squeeze(a), Squeeze(b));
      CollapseAfterSqueeze(a);
      CollapseAfterSqueeze(b);
    }
  }

  lemma CollapseAfterSqueeze(s: string)
    ensures Collapse(Squeeze(s)) == Collapse(s)
  {
    SqueezeShrinks(s);
  }

  lemma {:induction false} CollapseEnds(s: string)
    requires s != []
    ensures Collapse(s) != [] && Collapse(s)[0] == s[0] && Collapse(s)[|Collapse(s)| - 1] == s[|s| - 1]
    decreases |s|
  {
    if Contains(s, TRIPLE) {
      SqueezeShrinks(s);
      SqueezeHead(s);
      SqueezeLast(s);
      CollapseEnds(Squeeze(s));
    }
  }

  function Newlines(n: nat): (s: string)
    ensures |s| == n && forall k | 0 <= k < n :: s[k] == '\n'
  {
    seq(n, i requires 0 <= i < n => '\n')
  }

  /** Squeezing a run takes every three of its newlines to two. */
  lemma {:induction false} SqueezeNewlines(n: nat)
    ensures exists m: nat :: Squeeze(Newlines(n)) == Newlines(m) && (n < 3 ==> m == n) && (n >= 3 ==> 2 <= m < n)
  {
    var s := Newlines(n);
    if n == 0 {
      assert Squeeze(s) == Newlines(0);
    } else if n < 3 {
      SqueezeNewlines(n - 1);
      assert !(TRIPLE <= s) && s[1..] == Newlines(n - 1);
      assert ['\n'] + Newlines(n - 1) == Newlines(n);
    } else {
      SqueezeNewlines(n - 3);
      assert TRIPLE <= s && s[3..] == Newlines(n - 3);
      var m: nat :| Squeeze(Newlines(n - 3)) == Newlines(m) && m <= n - 3;
      assert "\n\n" + Newlines(m) == Newlines(m + 2);
    }
  }

  lemma {:induction false} CollapseNewlines(n: nat)
    ensures Collapse(Newlines(n)) == Newlines(if n < 2 then n else 2)
  {
    TripleInNewlines(n);
    if n >= 3 {
      SqueezeNewlines(n);
      var m: nat :| Squeeze(Newlines(n)) == Newlines(m) && 2 <= m < n;
      CollapseAfterSqueeze(Newlines(n));
      CollapseNewlines(m);
    }
  }

  lemma TripleInNewlines(n: nat)
    ensures Contains(Newlines(n), TRIPLE) <==> n >= 3
  {
    if n >= 3 {
      assert TRIPLE <= Newlines(n);
    } else if Contains(Newlines(n), TRIPLE) {
      FindIsOccurrence(Newlines(n), TRIPLE);
    }
  }

  /** Of a run of newlines one blank line is left if it had any, and the text on both sides
      is collapsed on its own. */
  lemma BlankLinesCollapse(a: string, n: nat, b: string)
    requires (a == [] || a[|a| - 1] != '\n') && (b == [] || b[0] != '\n')
    ensures Collapse(a + (Newlines(n) + b)) == Collapse(a) + (Newlines(if n < 2 then n else 2) + Collapse(b))
  {
    CollapseConcat(a, Newlines(n) + b);
    CollapseConcat(Newlines(n), b);
    CollapseNewlines(n);
  }

  // ---------- Peeling scratchpad ----------

  /** What one round of the first loop does: leave `text` for good, or go round again. */
  datatype Round = Stop(text: string) | Again(text: string)

  function PeelRound(s: string): (r: Round)
    ensures r.Again? ==> |r.text| < |s|
  {
    var start := Find(s, ANALYSIS_OPEN);
    if start < 0 || !IsLeading(s, start) then Stop(s)
    else
      var rel := Find(s[start..], ANALYSIS_CLOSE);
      if rel >= 0 then Again(s[..start] + s[start + rel + |ANALYSIS_CLOSE|..])
      else
        var open := Find(s[start..], SUMMARY_OPEN);
        Stop(s[..start] + if open < 0 then [] else s[start + open..])
  }

  /** The first loop: remove `<analysis>` blocks that lead the text or the summary. */
  function StripAnalysis(s: string): string
    decreases |s|
  {
    var r := PeelRound(s);
    if r.Stop? then r.text else StripAnalysis(r.text)
  }

  /** Nothing but whitespace separates the block from the start of the text or of the summary. */
  predicate IsLeading(s: string, start: nat)
    requires Find(s, ANALYSIS_OPEN) == start
  {
    var sp := Find(s, SUMMARY_OPEN);
    if sp < 0 then Strip(s[..start]) == []
    else
      start < sp || (FoundTagsDiffer(s); Strip(s[sp + |SUMMARY_OPEN|..start]) == [])
  }

  /** The slice between the two tags is in range. */
  lemma FoundTagsDiffer(s: string)
    requires Find(s, SUMMARY_OPEN) >= 0 && Find(s, ANALYSIS_OPEN) >= Find(s, SUMMARY_OPEN)
    ensures Find(s, ANALYSIS_OPEN) >= Find(s, SUMMARY_OPEN) + |SUMMARY_OPEN|
  {
    FindIsOccurrence(s, SUMMARY_OPEN);
    FindIsOccurrence(s, ANALYSIS_OPEN);
    TagsDiffer(s, Find(s, SUMMARY_OPEN), Find(s, ANALYSIS_OPEN));
  }

  lemma TagsDiffer(s: string, i: nat, start: nat)
    requires i <= |s| && start <= |s| && SUMMARY_OPEN <= s[i..] && ANALYSIS_OPEN <= s[start..]
    ensures s[start] == '<' && start != i && (start > i ==> start >= i + |SUMMARY_OPEN|)
  {
    SummaryTags();
    AnalysisTags();
    assert s[start..][0] == s[start] && s[start..][1] == 'a' && s[i..][1] == 's';
    if start > i { TagsDoNotOverlap(s, SUMMARY_OPEN, ANALYSIS_OPEN, i, start); }
  }

  predicate IsDecoration(c: char) {
    c == '#' || c == '*' || c == '-' || c == '>' || c == ' ' || c == '\t'
  }

  /** The text starts with a numbered section, possibly markdown-decorated. */
  predicate NumberedLead(s: string) {
    var lead := TrimStart(IsDecoration, s);
    lead != [] && IsDigit(lead[0])
  }

  function StripScratchpad(inner: string): string { DropOpener(DropDraft(Strip(inner))) }

  function DropDraft(s: string): string {
    var pos := RFind(s, ANALYSIS_CLOSE);
    if !NumberedLead(s) && pos >= 0 then TrimStart(RustWhitespace, s[pos + |ANALYSIS_CLOSE|..]) else s
  }

  function DropOpener(t: string): string {
    if SUMMARY_OPEN <= t then TrimStart(RustWhitespace, t[|SUMMARY_OPEN|..]) else t
  }

  lemma {:induction false} FoundPairIsDisjoint(s: string)
    requires Find(s, SUMMARY_OPEN) >= 0 && RFind(s, SUMMARY_CLOSE) > Find(s, SUMMARY_OPEN)
    ensures RFind(s, SUMMARY_CLOSE) >= Find(s, SUMMARY_OPEN) + |SUMMARY_OPEN|
  {
    SummaryTags();
    FindIsOccurrence(s, SUMMARY_OPEN);
    FindIsOccurrence(s, SUMMARY_CLOSE);
    TagsDoNotOverlap(s, SUMMARY_OPEN, SUMMARY_CLOSE, Find(s, SUMMARY_OPEN), RFind(s, SUMMARY_CLOSE));
  }

  function Unwrap(s: string): string {
    var start, end := Find(s, SUMMARY_OPEN), RFind(s, SUMMARY_CLOSE);
    if start >= 0 && end > start then
      FoundPairIsDisjoint(s);
      s[..start] + (SUMMARY_LABEL + StripScratchpad(Strip(s[start + |SUMMARY_OPEN|..end])))
        + s[end + |SUMMARY_CLOSE|..]
    else s
  }

  function Format(s: string): string {
    Finish(Unwrap(StripAnalysis(s)))
  }

  function Finish(s: string): string { Strip(Collapse(Neutralize(s))) }

  /** The source's first loop; it ends, and every slice of a round is in range. */
  method RemoveLeadingAnalysis(summary: string) returns (result: string)
    ensures result == StripAnalysis(summary)
  {
    result := summary;
    var again := true;
    while again
      invariant StripAnalysis(summary) == if again then StripAnalysis(result) else result
      decreases again, |result|
    {
      var round := PeelRound(result);
      result, again := round.text, round.Again?;
    }
  }

  /** The source's loop that collapses runs of blank lines. */
  method CollapseBlankLines(text: string) returns (result: string)
    ensures result == Collapse(text)
  {
    result := text;
    while Contains(result, TRIPLE)
      invariant Collapse(result) == Collapse(text)
      decreases |result|
    {
      SqueezeShrinks(result);
      result := Squeeze(result);
    }
  }

  method FormatCompactSummary(summary: string) returns (result: string)
    ensures result == Format(summary)
  {
    result := RemoveLeadingAnalysis(summary);
    result := Neutralize(Unwrap(result));
    result := CollapseBlankLines(result);
    result := Strip(result);
  }

  // ---------- Main results ----------

  lemma {:induction false} ContainsInSlice(s: string, i: nat, j: nat, q: string)
    requires i <= j <= |s| && Contains(s[i..j], q)
    ensures Contains(s, q)
  {
    FindIsOccurrence(s[i..j], q);
    var k := Find(s[i..j], q);
    assert forall m | 0 <= m < |q| :: s[i + k..][m] == s[i..j][k..][m];
    ContainsAt(s, q, i + k);
  }

  lemma TrimContains(s: string, q: string)
    requires Contains(Strip(s), q)
    ensures Contains(s, q)
  {
    TrimIsTrimmed(RustWhitespace, s);
    var i, j :| 0 <= i <= j <= |s| && Strip(s) == s[i..j];
    ContainsInSlice(s, i, j, q);
  }

  lemma {:induction false} TrimKeepsOut(s: string, tags: seq<string>)
    requires NoneOf(s, tags)
    ensures NoneOf(Strip(s), tags)
  {
    if tags != [] {
      if Contains(Strip(s), tags[0]) { TrimContains(s, tags[0]); }
      TrimKeepsOut(s, tags[1..]);
    }
  }

  lemma {:induction false} CollapseKeepsOut(s: string, tags: seq<string>)
    requires NoneOf(s, tags) && AllTags(tags)
    ensures NoneOf(Collapse(s), tags)
  {
    if tags != [] {
      CollapseProps(s, tags[0]);
      CollapseKeepsOut(s, tags[1..]);
    }
  }

  /** For every input, the output holds no control token, no triple newline and no
      surrounding whitespace. */
  lemma FormatIsClean(s: string)
    ensures NoControlToken(Format(s))
    ensures !Contains(Format(s), TRIPLE)
    ensures Trimmed(RustWhitespace, Format(s))
  {
    var n := Neutralize(Unwrap(StripAnalysis(s)));
    TagsAreTags();
    DefuseEachProps(Unwrap(StripAnalysis(s)), TAGS);
    CollapseKeepsOut(n, TAGS);
    CollapseProps(n, TRIPLE);
    TrimKeepsOut(Collapse(n), TAGS);
    if Contains(Format(s), TRIPLE) { TrimContains(Collapse(n), TRIPLE); }
    TrimIsTrimmed(RustWhitespace, Collapse(n));
  }

  /** Cleaned text is a fixed point. */
  lemma FormatIsIdempotent(s: string)
    ensures Format(Format(s)) == Format(s)
  {
    FormatIsClean(s);
    CleanIsFixed(Format(s));
  }

  lemma CleanIsFixed(s: string)
    requires NoControlToken(s) && !Contains(s, TRIPLE) && Trimmed(RustWhitespace, s)
    ensures Format(s) == s
  {
    NoControlTokenMeans(s);
    FindIsOccurrence(s, ANALYSIS_OPEN);
    FindIsOccurrence(s, SUMMARY_OPEN);
    assert StripAnalysis(s) == s && Unwrap(s) == s;
    TagsAreTags();
    DefuseEachProps(s, TAGS);
    TrimIsTrimmed(RustWhitespace, s);
  }

  /** The fixed points are exactly the clean texts. */
  lemma {:induction false} FixedIffClean(s: string)
    ensures Format(s) == s <==> NoControlToken(s) && !Contains(s, TRIPLE) && Trimmed(RustWhitespace, s)
  {
    FormatIsClean(s);
    if NoControlToken(s) && !Contains(s, TRIPLE) && Trimmed(RustWhitespace, s) { CleanIsFixed(s); }
  }

  /** `draft` holds no closer, not even one straddling its end. */
  predicate ClosesAtEnd(draft: string, close: string) {
    Find(draft + close, close) == |draft|
  }

  /** The first closer of `open draft close rest` is the one after `draft`. */
  lemma FirstCloser(open: string, draft: string, close: string, rest: string)
    requires IsTag(open) && IsTag(close) && open[1] != close[1] && ClosesAtEnd(draft, close)
    ensures Find(open + draft + close + rest, close) == |open| + |draft|
  {
    var s := open + draft + close + rest;
    var at := |open| + |draft|;
    assert s[at..] == close + rest && s[|open|..] == draft + close + rest && s[0..] == s;
    FindFirst(s, close, at);
    FindIsOccurrence(s, close);
    NoEarlierCloser(s, open, draft, close, Find(s, close));
  }

  lemma NoEarlierCloser(s: string, open: string, draft: string, close: string, i: nat)
    requires IsTag(open) && IsTag(close) && open[1] != close[1] && ClosesAtEnd(draft, close)
    requires i <= |open| + |draft| <= |s| && open <= s && draft + close <= s[|open|..]
    requires close <= s[i..]
    ensures i == |open| + |draft|
  {
    assert s[i..][1] == s[i + 1] && s[0..] == s;
    if 0 < i { TagsDoNotOverlap(s, open, close, 0, i); }
    if |open| <= i {
      var j := i - |open|;
      assert s[|open|..][j..] == s[i..];
      CloserInDraft(draft, close, s[|open|..], j);
    }
  }

  lemma CloserInDraft(draft: string, close: string, s: string, j: nat)
    requires ClosesAtEnd(draft, close) && j <= |draft| && draft + close <= s && close <= s[j..]
    ensures j == |draft|
  {
    var d := draft + close;
    assert close <= d[j..] by {
      assert forall k | 0 <= k < |close| :: d[j..][k] == d[j + k] == s[j + k] == s[j..][k];
    }
    FindFirst(d, close, j);
  }

  /** A drafting block behind text without tags disappears whole, whatever follows it, if
      nothing or only whitespace is before it, or a summary comes later; if neither, the
      loop leaves the text alone. */
  lemma LeadingAnalysisIsDropped(front: string, draft: string, rest: string)
    requires Free(front, '<') && ClosesAtEnd(draft, ANALYSIS_CLOSE)
    ensures var block := ANALYSIS_OPEN + draft + ANALYSIS_CLOSE + rest;
            if Blank(RustWhitespace, front) || Contains(block, SUMMARY_OPEN) then Format(front + block) == Format(front + rest)
            else StripAnalysis(front + block) == front + block
  {
    var block := ANALYSIS_OPEN + draft + ANALYSIS_CLOSE + rest;
    var s := front + block;
    assert s[|front|..] == block;
    AnalysisTags();
    SummaryTags();
    FirstAt(s, ANALYSIS_OPEN, |front|);
    LeadsIff(front, block);
    PeelsTo(s, |front|, draft, rest);
    assert s[..|front|] == front;
  }

  /** The first block leads if nothing or only whitespace is before it, or a summary is behind it. */
  lemma {:induction false} LeadsIff(front: string, block: string)
    requires Free(front, '<') && ANALYSIS_OPEN <= block
    ensures Find(front + block, ANALYSIS_OPEN) == |front|
    ensures IsLeading(front + block, |front|) <==> Blank(RustWhitespace, front) || Contains(block, SUMMARY_OPEN)
  {
    var s := front + block;
    assert s[|front|..] == block && s[..|front|] == front;
    AnalysisTags();
    FirstAt(s, ANALYSIS_OPEN, |front|);
    SummaryBehind(front, block);
    BlankTrims(RustWhitespace, front);
  }

  lemma {:induction false} SummaryBehind(front: string, block: string)
    requires Free(front, '<') && ANALYSIS_OPEN <= block
    ensures var sp := Find(front + block, SUMMARY_OPEN);
            if Contains(block, SUMMARY_OPEN) then sp > |front| else sp < 0
  {
    SummaryTags();
    FindSkips(front, block, SUMMARY_OPEN);
    FindComplete(block, SUMMARY_OPEN);
    assert block[1] == 'a';
  }

  /** Searching behind text without tags. */
  lemma {:induction false} FindSkips(front: string, tail: string, p: string)
    requires IsTag(p) && Free(front, '<')
    ensures Find(front + tail, p) == if Find(tail, p) >= 0 then |front| + Find(tail, p) else -1
  {
    if front == [] {
      assert front + tail == tail;
    } else {
      assert (front + tail)[1..] == front[1..] + tail && (front + tail)[0] == front[0];
      FindSkips(front[1..], tail, p);
    }
  }

  /** One round that finds its block at `start`: out goes the block if it leads. */
  lemma PeelsTo(s: string, start: nat, draft: string, rest: string)
    requires Find(s, ANALYSIS_OPEN) == start && s[start..] == ANALYSIS_OPEN + draft + ANALYSIS_CLOSE + rest
    requires ClosesAtEnd(draft, ANALYSIS_CLOSE)
    ensures PeelRound(s) == if IsLeading(s, start) then Again(s[..start] + rest) else Stop(s)
  {
    AnalysisTags();
    FirstCloser(ANALYSIS_OPEN, draft, ANALYSIS_CLOSE, rest);
    var rel := |ANALYSIS_OPEN| + |draft|;
    assert s[start + rel + |ANALYSIS_CLOSE|..] == s[start..][rel + |ANALYSIS_CLOSE|..] == rest;
  }

  /** And one that leads the inside of the summary disappears too. */
  lemma NestedAnalysisIsDropped(front: string, gap: string, draft: string, rest: string)
    requires Free(front, '<') && Blank(RustWhitespace, gap) && ClosesAtEnd(draft, ANALYSIS_CLOSE)
    ensures Format(front + SUMMARY_OPEN + gap + (ANALYSIS_OPEN + draft + ANALYSIS_CLOSE + rest)) ==
            Format(front + SUMMARY_OPEN + gap + rest)
  {
    var head := front + SUMMARY_OPEN + gap;
    var block := ANALYSIS_OPEN + draft + ANALYSIS_CLOSE + rest;
    NestedFinds(front, gap, block);
    var s := head + block;
    assert s[|head|..] == block && s[..|head|] == head;
    PeelsTo(s, |head|, draft, rest);
  }

  lemma {:induction false} NestedFinds(front: string, gap: string, block: string)
    requires Free(front, '<') && Blank(RustWhitespace, gap) && ANALYSIS_OPEN <= block
    ensures var head := front + SUMMARY_OPEN + gap;
            Find(head + block, ANALYSIS_OPEN) == |head| && IsLeading(head + block, |head|)
  {
    var head := front + SUMMARY_OPEN + gap;
    var s := head + block;
    var i := |front|;
    assert s[|head|..] == block;
    assert s[i..] == SUMMARY_OPEN + gap + block;
    assert s[i + |SUMMARY_OPEN|..|head|] == gap;
    AnalysisTags();
    SummaryTags();
    FirstAt(s, SUMMARY_OPEN, i);
    FindFirst(s, ANALYSIS_OPEN, |head|);
    FindIsOccurrence(s, ANALYSIS_OPEN);
    var start: nat := Find(s, ANALYSIS_OPEN);
    TagsDiffer(s, i, start);
    BlankIsFree(gap);
    BlankTrims(RustWhitespace, gap);
  }

  /** Searching behind a tag for another kind of tag. */
  lemma {:induction false} FindBehind(open: string, tail: string, p: string)
    requires IsTag(open) && IsTag(p) && open[1] != p[1]
    ensures Find(open + tail, p) == if Find(tail, p) >= 0 then |open| + Find(tail, p) else -1
  {
    assert (open + tail)[1..] == open[1..] + tail && (open + tail)[1] == open[1];
    FindSkips(open[1..], tail, p);
  }

  /** A drafting block that is never closed is cut off up to the next `<summary>`, or to
      the end of the text if nothing but whitespace is before it; so a text that is
      nothing but an unclosed draft formats to nothing. */
  lemma {:induction false} UnclosedAnalysisIsDropped(front: string, draft: string)
    requires Free(front, '<') && !Contains(draft, ANALYSIS_CLOSE)
    ensures var s, sp := front + (ANALYSIS_OPEN + draft), Find(draft, SUMMARY_OPEN);
            StripAnalysis(s) == if sp >= 0 then front + draft[sp..] else if Blank(RustWhitespace, front) then front else s
    ensures Blank(RustWhitespace, front) && !Contains(draft, SUMMARY_OPEN) ==> Format(front + (ANALYSIS_OPEN + draft)) == []
  {
    CutBehind(front, ANALYSIS_OPEN + draft, draft);
    FindComplete(draft, SUMMARY_OPEN);
    if Blank(RustWhitespace, front) { BlankIsClean(front); }
  }

  lemma {:induction false} CutBehind(front: string, block: string, draft: string)
    requires Free(front, '<') && block == ANALYSIS_OPEN + draft && !Contains(draft, ANALYSIS_CLOSE)
    ensures var s, sp := front + block, Find(draft, SUMMARY_OPEN);
            StripAnalysis(s) == if sp >= 0 then front + draft[sp..] else if Blank(RustWhitespace, front) then front else s
  {
    hide Contains, Find, Blank;
    var s := front + block;
    assert s[|front|..] == block && s[..|front|] == front;
    LeadsIff(front, block);
    CutsTo(s, |front|, draft);
    SummaryTags();
    AnalysisTags();
    FindBehind(ANALYSIS_OPEN, draft, SUMMARY_OPEN);
    FindComplete(block, SUMMARY_OPEN);
    assert front + [] == front;
  }

  /** One round that finds a block at `start` and no end of it. */
  lemma CutsTo(s: string, start: nat, draft: string)
    requires Find(s, ANALYSIS_OPEN) == start && s[start..] == ANALYSIS_OPEN + draft && !Contains(draft, ANALYSIS_CLOSE)
    ensures var sp := Find(draft, SUMMARY_OPEN);
            StripAnalysis(s) == if IsLeading(s, start) then s[..start] + (if sp < 0 then [] else draft[sp..]) else s
  {
    SummaryTags();
    AnalysisTags();
    FindBehind(ANALYSIS_OPEN, draft, ANALYSIS_CLOSE);
    FindBehind(ANALYSIS_OPEN, draft, SUMMARY_OPEN);
    FindComplete(draft, ANALYSIS_CLOSE);
    UnclosedRound(s, start, ANALYSIS_OPEN + draft);
    var sp := Find(draft, SUMMARY_OPEN);
    if sp >= 0 { AppendDrop(ANALYSIS_OPEN, draft, sp); }
  }

  lemma UnclosedRound(s: string, start: nat, block: string)
    requires Find(s, ANALYSIS_OPEN) == start && s[start..] == block && Find(block, ANALYSIS_CLOSE) < 0
    ensures var sp := Find(block, SUMMARY_OPEN);
            PeelRound(s) == Stop(if IsLeading(s, start) then s[..start] + (if sp < 0 then [] else block[sp..]) else s)
  {
    hide IsLeading, Find;
    var sp := Find(block, SUMMARY_OPEN);
    if sp >= 0 { DropDrop(s, start, sp); }
  }

  lemma BlankIsClean(w: string)
    requires Blank(RustWhitespace, w)
    ensures Finish(Unwrap(w)) == []
  {
    BlankIsFree(w);
    NothingToUnwrap(w);
    FreeIsNeutral(w);
    CollapseBlank(w);
    BlankTrims(RustWhitespace, Collapse(w));
  }

  lemma NothingToUnwrap(w: string)
    requires Free(w, '<')
    ensures Unwrap(w) == w
  {
    FindIsOccurrence(w, SUMMARY_OPEN);
    if Find(w, SUMMARY_OPEN) >= 0 {
      assert w[Find(w, SUMMARY_OPEN)..][0] == w[Find(w, SUMMARY_OPEN)];
    }
  }

  lemma FreeIsNeutral(w: string)
    requires Free(w, '<')
    ensures Neutralize(w) == w
  {
    TagsAreTags();
    DefuseEachSkips(w, [], TAGS);
    DefuseEachProps([], TAGS);
    assert w + [] == w;
  }

  lemma {:induction false} CollapseBlank(s: string)
    requires Blank(RustWhitespace, s)
    ensures Blank(RustWhitespace, Collapse(s))
    decreases |s|
  {
    if Contains(s, TRIPLE) {
      SqueezeShrinks(s);
      SqueezeBlank(s);
      CollapseBlank(Squeeze(s));
    }
  }

  lemma {:induction false} SqueezeBlank(s: string)
    requires Blank(RustWhitespace, s)
    ensures Blank(RustWhitespace, Squeeze(s))
    decreases |s|
  {
    if s != [] {
      if TRIPLE <= s {
        assert s == s[..3] + s[3..];
        BlankSplit(RustWhitespace, s[..3], s[3..]);
        SqueezeBlank(s[3..]);
        BlankSplit(RustWhitespace, "\n\n", Squeeze(s[3..]));
      } else {
        SqueezeBlank(s[1..]);
        BlankSplit(RustWhitespace, [s[0]], Squeeze(s[1..]));
      }
    }
  }

  // ---------- Text without tags ----------

  lemma {:induction false} BlankHasNo(w: string, k: nat)
    requires Blank(RustWhitespace, w) && k < |w|
    ensures RustWhitespace(w[k])
  {
    if k > 0 { BlankHasNo(w[1..], k - 1); }
  }

  lemma BlankIsFree(w: string)
    requires Blank(RustWhitespace, w)
    ensures Free(w, '<')
  {
    forall k | 0 <= k < |w| ensures w[k] != '<' { BlankHasNo(w, k); }
  }

  /** Text behind a tag that has no tags of its own and cannot complete one. */
  predicate Apart(w: string) { Free(w, '<') && (w == [] || RustWhitespace(w[0])) }

  lemma {:induction false} MarkSkipsRight(a: string, w: string, p: string)
    requires IsTag(p) && Apart(w)
    ensures Mark(a + w, p) == Mark(a, p) + w
  {
    if a == [] {
      MarkSkips(w, [], p);
      assert a + w == w && w + [] == w;
    } else {
      assert (a + w)[1..] == a[1..] + w;
      if w != [] && |a| < |p| { assert (a + w)[|a|] == w[0]; }
      MarkSkipsRight(a[1..], w, p);
    }
  }

  lemma {:induction false} DefuseEachSkipsRight(a: string, w: string, tags: seq<string>)
    requires AllTags(tags) && Apart(w)
    ensures DefuseEach(a + w, tags) == DefuseEach(a, tags) + w
    decreases |tags|
  {
    if tags != [] {
      DefuseIsMark(a + w, tags[0]);
      DefuseIsMark(a, tags[0]);
      MarkSkipsRight(a, w, tags[0]);
      DefuseEachSkipsRight(Defuse(a, tags[0]), w, tags[1..]);
    }
  }

  /** Before the number of the first section there is no `<`. */
  lemma NumberComesFirst(body: string) returns (m: nat)
    requires NumberedLead(Strip(body))
    ensures m < |body| && IsDigit(body[m]) && forall k | 0 <= k <= m :: body[k] != '<'
    ensures Strip(body) != [] && Strip(body)[0] != '<' && body != []
  {
    var t := TrimStart(RustWhitespace, body);
    var b := Strip(body);
    TrimStartProps(RustWhitespace, body);
    TrimEndProps(RustWhitespace, t);
    var lead := TrimStart(IsDecoration, b);
    TrimStartProps(IsDecoration, b);
    var pad, deco := |body| - |t|, |b| - |lead|;
    m := pad + deco;
    assert b[deco] == lead[0] && body[m] == t[deco] == b[deco];
    forall k | 0 <= k <= m ensures body[k] != '<' {
      if k < pad {
        BlankHasNo(body[..pad], k);
      } else if k < m {
        DecorationHasNo(b[..deco], k - pad);
        assert body[k] == b[k - pad];
      }
    }
    if deco > 0 { DecorationHasNo(b[..deco], 0); }
  }

  lemma {:induction false} DecorationHasNo(w: string, k: nat)
    requires Blank(IsDecoration, w) && k < |w|
    ensures IsDecoration(w[k])
  {
    if k > 0 { DecorationHasNo(w[1..], k - 1); }
  }

  lemma FirstAt(s: string, p: string, i: nat)
    requires IsTag(p) && i <= |s| && p <= s[i..] && forall k | 0 <= k < i :: s[k] != '<'
    ensures Find(s, p) == i
  {
    FindFirst(s, p, i);
    FindIsOccurrence(s, p);
    assert s[Find(s, p)..][0] == s[Find(s, p)];
  }

  lemma {:induction false} LastAt(s: string, p: string, e: nat)
    requires IsTag(p) && e <= |s| && p <= s[e..] && forall k | e + |p| <= k < |s| :: s[k] != '<'
    ensures RFind(s, p) == e
  {
    RFindLast(s, p, e);
    FindIsOccurrence(s, p);
    var j: nat := RFind(s, p);
    assert s[j..][0] == s[j];
    if j > e { TagsDoNotOverlap(s, p, p, e, j); }
  }

  /** `<summary>` at `i` and `</summary>` at `e`, and no `<` outside them. */
  ghost predicate Layout(s: string, i: nat, e: nat) {
    && i + |SUMMARY_OPEN| <= e && e + |SUMMARY_CLOSE| <= |s|
    && SUMMARY_OPEN <= s[i..] && SUMMARY_CLOSE <= s[e..]
    && (forall k | 0 <= k < i :: s[k] != '<')
    && (forall k | e + |SUMMARY_CLOSE| <= k < |s| :: s[k] != '<')
  }

  lemma LayoutFinds(s: string, i: nat, e: nat)
    requires Layout(s, i, e)
    ensures Find(s, SUMMARY_OPEN) == i && RFind(s, SUMMARY_CLOSE) == e
  {
    SummaryTags();
    FirstAt(s, SUMMARY_OPEN, i);
    LastAt(s, SUMMARY_CLOSE, e);
  }

  function Wrapped(w: string, body: string, w': string): string {
    w + SUMMARY_OPEN + body + SUMMARY_CLOSE + w'
  }

  lemma {:induction false} LayoutOf(w: string, body: string, w': string)
    requires Free(w, '<') && Free(w', '<')
    ensures var i, e := |w|, |w| + |SUMMARY_OPEN| + |body|;
            var s := Wrapped(w, body, w');
            Layout(s, i, e) && s[..i] == w && s[i + |SUMMARY_OPEN|..e] == body && s[e + |SUMMARY_CLOSE|..] == w'
  {
    Pieces(w, SUMMARY_OPEN, body, SUMMARY_CLOSE, w');
    PiecesFree(w, SUMMARY_OPEN, body, SUMMARY_CLOSE, w');
  }

  lemma PiecesFree(a: string, b: string, c: string, d: string, e: string)
    requires Free(a, '<') && Free(e, '<')
    ensures var s := a + b + c + d + e;
            (forall k | 0 <= k < |a| :: s[k] != '<') && (forall k | |a| + |b| + |c| + |d| <= k < |s| :: s[k] != '<')
  {
  }

  lemma NotLeading(s: string, from: nat, start: nat, m: nat)
    requires from + m < start <= |s| && IsDigit(s[from + m])
    ensures Strip(s[from..start]) != []
  {
    var between := s[from..start];
    assert between[m] == s[from + m];
    NonBlankAt(between, m);
    BlankTrims(RustWhitespace, between);
  }

  /** An `<analysis>` behind a digit of the body is not leading. */
  lemma {:induction false} BehindTheNumber(s: string, i: nat, e: nat, m: nat)
    requires Layout(s, i, e) && i + |SUMMARY_OPEN| + m < e && IsDigit(s[i + |SUMMARY_OPEN| + m])
    requires forall k | i + |SUMMARY_OPEN| <= k <= i + |SUMMARY_OPEN| + m :: s[k] != '<'
    ensures StripAnalysis(s) == s
  {
    LayoutFinds(s, i, e);
    var start := Find(s, ANALYSIS_OPEN);
    FindIsOccurrence(s, ANALYSIS_OPEN);
    if start >= 0 {
      TagsDiffer(s, i, start);
      NotLeading(s, i + |SUMMARY_OPEN|, start, m);
      Unpeeled(s, i, start);
    }
  }

  lemma {:induction false} Unpeeled(s: string, i: nat, start: nat)
    requires Find(s, SUMMARY_OPEN) == i && Find(s, ANALYSIS_OPEN) == start && i + |SUMMARY_OPEN| <= start
    requires Strip(s[i + |SUMMARY_OPEN|..start]) != []
    ensures StripAnalysis(s) == s
  {
  }

  lemma NonBlankAt(s: string, m: nat)
    requires m < |s| && !RustWhitespace(s[m])
    ensures !Blank(RustWhitespace, s)
  {
    if Blank(RustWhitespace, s) { BlankHasNo(s, m); }
  }

  lemma NumberedIsKept(body: string)
    requires NumberedLead(Strip(body))
    ensures StripScratchpad(Strip(body)) == Strip(body)
  {
    var m := NumberComesFirst(body);
    var b := Strip(body);
    TrimIsTrimmed(RustWhitespace, body);
    TrimIsTrimmed(RustWhitespace, b);
    assert Strip(b) == b;
    assert SUMMARY_OPEN[0] == '<';
  }

  lemma Pieces(a: string, b: string, c: string, d: string, e: string)
    ensures var s := a + b + c + d + e;
            s[..|a|] == a && b <= s[|a|..] && s[|a| + |b|..|a| + |b| + |c|] == c &&
            d <= s[|a| + |b| + |c|..] && s[|a| + |b| + |c| + |d|..] == e
  {
  }

  lemma LayoutUnwraps(s: string, i: nat, e: nat)
    requires Layout(s, i, e)
    ensures Unwrap(s) == s[..i] + (SUMMARY_LABEL + StripScratchpad(Strip(s[i + |SUMMARY_OPEN|..e]))) + s[e + |SUMMARY_CLOSE|..]
  {
    hide Find, RFind, Trim, StripScratchpad;
    LayoutFinds(s, i, e);
  }

  lemma NumberedLayout(s: string, i: nat, e: nat)
    requires Layout(s, i, e) && NumberedLead(Strip(s[i + |SUMMARY_OPEN|..e]))
    requires Free(s[..i], '<') && Apart(s[e + |SUMMARY_CLOSE|..])
    ensures Format(s) == Around(s[..i], SUMMARY_LABEL + Collapse(Neutralize(Strip(s[i + |SUMMARY_OPEN|..e]))), s[e + |SUMMARY_CLOSE|..])
  {
    var from := i + |SUMMARY_OPEN|;
    var body := s[from..e];
    var m := NumberComesFirst(body);
    assert forall k | from <= k <= from + m :: s[k] == body[k - from];
    BehindTheNumber(s, i, e, m);
    LayoutUnwraps(s, i, e);
    NumberedIsKept(body);
    TrimIsTrimmed(RustWhitespace, body);
    LabelledIsFinished(s[..i], Strip(body), s[e + |SUMMARY_CLOSE|..]);
  }

  // ---------- A draft without an opening tag ----------

  lemma LastBehind(s: string, p: string, i: nat)
    requires IsTag(p) && i + |p| <= |s| && p <= s[i..] && !Contains(s[i + |p|..], p)
    ensures RFind(s, p) == i
  {
    RFindLast(s, p, i);
    RFindSound(s, p);
    var j: nat := RFind(s, p);
    if j > i {
      TagsDoNotOverlap(s, p, p, i, j);
      DropDrop(s, i + |p|, j - i - |p|);
      ContainsAt(s[i + |p|..], p, j - i - |p|);
    }
  }

  lemma LastCloser(draft: string, close: string, rest: string)
    requires IsTag(close) && !Contains(rest, close)
    ensures RFind(draft + close + rest, close) == |draft|
  {
    var s := draft + close + rest;
    assert s[|draft|..] == close + rest && s[|draft| + |close|..] == rest;
    LastBehind(s, close, |draft|);
  }

  /** A tag behind a draft does not make it numbered. */
  lemma NumberedDraft(draft: string, rest: string)
    requires rest != [] && rest[0] == '<'
    ensures NumberedLead(draft + rest) <==> NumberedLead(draft)
  {
    TrimStartStops(IsDecoration, draft, rest);
  }

  lemma CloserStays(draft: string, rest: string)
    ensures Strip(draft + ANALYSIS_CLOSE + rest) ==
            TrimStart(RustWhitespace, draft) + ANALYSIS_CLOSE + TrimEnd(RustWhitespace, rest)
  {
    assert ANALYSIS_CLOSE[0] == '<' && ANALYSIS_CLOSE[|ANALYSIS_CLOSE| - 1] == '>';
    TrimAround(RustWhitespace, draft, ANALYSIS_CLOSE, rest);
  }

  lemma ScratchpadBehind(inner: string, draft: string, rest: string)
    requires Strip(inner) == draft + ANALYSIS_CLOSE + rest
    requires !Contains(rest, ANALYSIS_CLOSE) && !NumberedLead(draft)
    ensures StripScratchpad(inner) == DropOpener(TrimStart(RustWhitespace, rest))
  {
    hide RFind, Contains;
    var close, s := ANALYSIS_CLOSE, Strip(inner);
    AnalysisTags();
    LastCloser(draft, close, rest);
    NumberedDraft(draft, close + rest);
    assert s == draft + (close + rest) && s[|draft| + |close|..] == rest;
  }

  lemma NoScratchpad(inner: string)
    requires !Contains(inner, ANALYSIS_CLOSE)
    ensures StripScratchpad(inner) == DropOpener(Strip(inner))
  {
    if Contains(Strip(inner), ANALYSIS_CLOSE) { TrimContains(inner, ANALYSIS_CLOSE); }
    RFindComplete(Strip(inner), ANALYSIS_CLOSE);
  }

  /** Everything up to the last `</analysis>` goes, unless it starts with a numbered section. */
  lemma ScratchpadIsDropped(draft: string, rest: string)
    requires !Contains(rest, ANALYSIS_CLOSE) && !NumberedLead(TrimStart(RustWhitespace, draft))
    ensures StripScratchpad(draft + ANALYSIS_CLOSE + rest) == StripScratchpad(rest) == DropOpener(Strip(rest))
  {
    var tail := TrimEnd(RustWhitespace, rest);
    TrimEndProps(RustWhitespace, rest);
    if Contains(tail, ANALYSIS_CLOSE) { ContainsInSlice(rest, 0, |tail|, ANALYSIS_CLOSE); }
    CloserStays(draft, rest);
    ScratchpadBehind(draft + ANALYSIS_CLOSE + rest, TrimStart(RustWhitespace, draft), tail);
    TrimInsideOut(RustWhitespace, rest);
    NoScratchpad(rest);
  }

  lemma RFindComplete(s: string, p: string)
    requires !Contains(s, p)
    ensures RFind(s, p) < 0
  {
    FindIsOccurrence(s, p);
    if RFind(s, p) >= 0 { ContainsAt(s, p, RFind(s, p)); }
  }

  /** Without an opening tag in the body no round of the first loop finds a block. */
  lemma NothingToPeel(s: string, i: nat, e: nat)
    requires Layout(s, i, e) && !Contains(s[i + |SUMMARY_OPEN|..e], ANALYSIS_OPEN)
    ensures StripAnalysis(s) == s
  {
    SummaryTags();
    AnalysisTags();
    FindIsOccurrence(s, ANALYSIS_OPEN);
    if Find(s, ANALYSIS_OPEN) >= 0 {
      var start: nat := Find(s, ANALYSIS_OPEN);
      TagsDiffer(s, i, start);
      OpenerInBody(s, i, e, start);
    }
  }

  lemma OpenerInBody(s: string, i: nat, e: nat, start: nat)
    requires Layout(s, i, e) && i + |SUMMARY_OPEN| <= start < |s| && ANALYSIS_OPEN <= s[start..]
    ensures Contains(s[i + |SUMMARY_OPEN|..e], ANALYSIS_OPEN)
  {
    SummaryTags();
    AnalysisTags();
    assert s[start..][0] == s[start] && s[start..][1] == 'a' && s[e..][1] == '/';
    if start > e { TagsDoNotOverlap(s, SUMMARY_CLOSE, ANALYSIS_OPEN, e, start); }
    TagsDoNotOverlap(s, ANALYSIS_OPEN, SUMMARY_CLOSE, start, e);
    var body, k := s[i + |SUMMARY_OPEN|..e], start - i - |SUMMARY_OPEN|;
    assert forall m | 0 <= m < |ANALYSIS_OPEN| :: body[k..][m] == s[start..][m];
    ContainsAt(body, ANALYSIS_OPEN, k);
  }

  lemma LayoutUnpeeled(s: string, i: nat, e: nat, before: string, body: string, after: string)
    requires Layout(s, i, e) && s[..i] == before && s[i + |SUMMARY_OPEN|..e] == body && s[e + |SUMMARY_CLOSE|..] == after
    requires !Contains(body, ANALYSIS_OPEN)
    ensures Format(s) == Finish(before + (SUMMARY_LABEL + StripScratchpad(body)) + after)
  {
    NothingToPeel(s, i, e);
    LayoutUnwraps(s, i, e);
    StripScratchpadOfStrip(body);
  }

  lemma WrappedFormats(before: string, body: string, after: string)
    requires Free(before, '<') && Free(after, '<') && !Contains(body, ANALYSIS_OPEN)
    ensures Format(Wrapped(before, body, after)) == Finish(before + (SUMMARY_LABEL + StripScratchpad(body)) + after)
  {
    LayoutOf(before, body, after);
    LayoutUnpeeled(Wrapped(before, body, after), |before|, |before| + |SUMMARY_OPEN| + |body|, before, body, after);
  }

  lemma StripScratchpadOfStrip(body: string)
    ensures StripScratchpad(Strip(body)) == StripScratchpad(body)
  {
    TrimIsTrimmed(RustWhitespace, body);
    TrimIsTrimmed(RustWhitespace, Strip(body));
  }

  /** A summary without drafting and without a wrapper of its own survives whole, numbered
      or not. */
  lemma PlainBodySurvives(before: string, body: string, after: string)
    requires Free(before, '<') && Apart(after) && Strip(body) != [] && !(SUMMARY_OPEN <= Strip(body))
    requires !Contains(body, ANALYSIS_OPEN) && !Contains(body, ANALYSIS_CLOSE)
    ensures Format(Wrapped(before, body, after)) ==
            Around(before, SUMMARY_LABEL + Collapse(Neutralize(Strip(body))), after)
  {
    WrappedFormats(before, body, after);
    NoScratchpad(body);
    TrimIsTrimmed(RustWhitespace, body);
    LabelledIsFinished(before, Strip(body), after);
  }

  /** A second `<summary>` in front of the body is dropped. */
  lemma NestedOpenerIsDropped(before: string, gap: string, body: string, after: string)
    requires Free(before, '<') && Free(after, '<') && Blank(RustWhitespace, gap) && !(SUMMARY_OPEN <= Strip(body))
    requires !Contains(gap + SUMMARY_OPEN + body, ANALYSIS_OPEN) && !Contains(gap + SUMMARY_OPEN + body, ANALYSIS_CLOSE)
    ensures Format(Wrapped(before, gap + SUMMARY_OPEN + body, after)) == Format(Wrapped(before, body, after))
  {
    var inner := gap + SUMMARY_OPEN + body;
    ContainsBehind(gap + SUMMARY_OPEN, body, ANALYSIS_OPEN);
    ContainsBehind(gap + SUMMARY_OPEN, body, ANALYSIS_CLOSE);
    WrappedFormats(before, inner, after);
    WrappedFormats(before, body, after);
    NoScratchpad(inner);
    NoScratchpad(body);
    OpenerDropped(gap, body);
  }

  lemma OpenerDropped(gap: string, body: string)
    requires Blank(RustWhitespace, gap)
    ensures DropOpener(Strip(gap + SUMMARY_OPEN + body)) == Strip(body)
  {
    var tail := TrimEnd(RustWhitespace, body);
    assert SUMMARY_OPEN[0] == '<' && SUMMARY_OPEN[|SUMMARY_OPEN| - 1] == '>';
    TrimAround(RustWhitespace, gap, SUMMARY_OPEN, body);
    TrimStartSkips(RustWhitespace, gap, []);
    assert gap + [] == gap && [] + SUMMARY_OPEN == SUMMARY_OPEN;
    AppendDrop(SUMMARY_OPEN, tail, 0);
    TrimInsideOut(RustWhitespace, body);
  }

  lemma {:induction false} ContainsBehind(a: string, b: string, q: string)
    requires !Contains(a + b, q)
    ensures !Contains(b, q)
  {
    if a == [] {
      assert a + b == b;
    } else {
      assert (a + b)[1..] == a[1..] + b;
      ContainsBehind(a[1..], b, q);
    }
  }

  /** A draft that leads the summary without an opening tag disappears up to and with the
      last `</analysis>`, as if it had never been there; unless it starts with a numbered
      section, when all of it survives (`NumberedBodySurvives`). */
  lemma UntaggedDraftIsDropped(before: string, draft: string, rest: string, after: string)
    requires Free(before, '<') && Free(after, '<') && !NumberedLead(TrimStart(RustWhitespace, draft))
    requires !Contains(rest, ANALYSIS_CLOSE) && !Contains(draft + ANALYSIS_CLOSE + rest, ANALYSIS_OPEN)
    ensures Format(Wrapped(before, draft + ANALYSIS_CLOSE + rest, after)) == Format(Wrapped(before, rest, after))
  {
    var body := draft + ANALYSIS_CLOSE + rest;
    ContainsBehind(draft + ANALYSIS_CLOSE, rest, ANALYSIS_OPEN);
    ScratchpadIsDropped(draft, rest);
    WrappedFormats(before, body, after);
    WrappedFormats(before, rest, after);
  }

  /** What counts as a numbered section: behind hashes, stars, dashes, quotes, spaces and
      tabs comes a digit. */
  lemma NumberedLeadIff(deco: string, rest: string)
    requires forall k | 0 <= k < |deco| :: deco[k] in "#*-> \t"
    requires rest == [] || rest[0] !in "#*-> \t"
    ensures NumberedLead(deco + rest) <==> rest != [] && '0' <= rest[0] <= '9'
  {
    DecorationIsBlank(deco);
    TrimStartSkips(IsDecoration, deco, rest);
  }

  lemma {:induction false} DecorationIsBlank(deco: string)
    requires forall k | 0 <= k < |deco| :: deco[k] in "#*-> \t"
    ensures Blank(IsDecoration, deco)
  {
    if deco != [] {
      assert forall k | 0 <= k < |deco[1..]| :: deco[1..][k] == deco[k + 1];
      DecorationIsBlank(deco[1..]);
    }
  }

  // ---------- A numbered body ----------

  /** `text` between what formatting leaves of the prose around it. */
  function Around(before: string, text: string, after: string): string {
    TrimStart(RustWhitespace, Collapse(before)) + text + TrimEnd(RustWhitespace, Collapse(after))
  }

  /** A summary whose body leads with a numbered section keeps its whole body, even if
      the body quotes control tokens: it is only neutralized and its blank lines collapsed.
      The prose before and behind the summary stays too, as long as it holds no tag; behind
      the closing tag it must not be glued on, where it could complete a quoted tag. */
  lemma NumberedBodySurvives(before: string, body: string, after: string)
    requires Free(before, '<') && Apart(after) && NumberedLead(Strip(body))
    ensures Format(Wrapped(before, body, after)) ==
            Around(before, SUMMARY_LABEL + Collapse(Neutralize(Strip(body))), after)
  {
    hide Collapse, Neutralize, Trim, Format;
    LayoutOf(before, body, after);
    NumberedLayout(Wrapped(before, body, after), |before|, |before| + |SUMMARY_OPEN| + |body|);
  }

  lemma LabelledIsNeutralized(w: string, b: string, w': string)
    requires Free(w, '<') && Apart(w')
    ensures Neutralize(w + (SUMMARY_LABEL + b) + w') == w + (SUMMARY_LABEL + Neutralize(b)) + w'
  {
    TagsAreTags();
    DefuseEachSkipsRight(w + (SUMMARY_LABEL + b), w', TAGS);
    DefuseEachSkips(w, SUMMARY_LABEL + b, TAGS);
    DefuseEachSkips(SUMMARY_LABEL, b, TAGS);
  }

  lemma LabelledIsCollapsed(w: string, n: string, w': string)
    requires n != [] && Trimmed(RustWhitespace, n)
    ensures Collapse(w + (SUMMARY_LABEL + n) + w') == Collapse(w) + (SUMMARY_LABEL + Collapse(n)) + Collapse(w')
  {
    CollapseConcat(w + (SUMMARY_LABEL + n), w');
    CollapseConcat(w, SUMMARY_LABEL + n);
    CollapseConcat(SUMMARY_LABEL, n);
    LabelIsCollapsed();
  }

  lemma LabelledIsFinished(w: string, b: string, w': string)
    requires Free(w, '<') && Apart(w')
    requires b != [] && Trimmed(RustWhitespace, b)
    ensures Strip(Collapse(Neutralize(w + (SUMMARY_LABEL + b) + w'))) == Around(w, SUMMARY_LABEL + Collapse(Neutralize(b)), w')
  {
    var n := Neutralize(b);
    LabelledIsNeutralized(w, b, w');
    TagsAreTags();
    DefuseEachProps(b, TAGS);
    LabelledIsCollapsed(w, n, w');
    CollapseEnds(n);
    LabelStarts(Collapse(n));
    TrimAround(RustWhitespace, Collapse(w), SUMMARY_LABEL + Collapse(n), Collapse(w'));
  }

  lemma LabelStarts(n: string)
    requires n != [] && !RustWhitespace(n[|n| - 1])
    ensures Trimmed(RustWhitespace, SUMMARY_LABEL + n)
  {
    assert SUMMARY_LABEL[0] == 'S';
  }

  lemma LabelIsCollapsed()
    ensures Collapse(SUMMARY_LABEL) == SUMMARY_LABEL
  {
    var s := SUMMARY_LABEL;
    assert |s| == 9;
    assert s[0] == 'S' && s[1] == 'u' && s[2] == 'm' && s[3] == 'm';
    assert s[4] == 'a' && s[5] == 'r' && s[6] == 'y' && s[7] == ':';
    OneNewlineAtMost(s);
  }

  lemma {:induction false} OneNewlineAtMost(s: string)
    requires forall k | 0 <= k < |s| - 1 :: s[k] != '\n'
    ensures !Contains(s, TRIPLE)
  {
    if s != [] {
      OneNewlineAtMost(s[1..]);
      assert |s| >= 2 ==> s[0] != '\n';
    }
  }

  lemma {:induction false} EraseConcat(a: string, b: string)
    ensures Erase(a + b) == Erase(a) + Erase(b)
  {
    if a == [] {
      assert a + b == b;
    } else {
      assert (a + b)[1..] == a[1..] + b;
      EraseConcat(a[1..], b);
    }
  }

  /** Without triple newlines and zero-width spaces of its own, the body comes back
      exactly once the inserted zero-width spaces are erased. */
  lemma ErasingGivesTheBodyBack(before: string, body: string, after: string)
    requires Free(before, '<') && Apart(after) && NumberedLead(Strip(body))
    requires Free(Strip(body), ZW) && !Contains(Strip(body), TRIPLE)
    ensures Erase(Format(Wrapped(before, body, after))) ==
            Erase(TrimStart(RustWhitespace, Collapse(before))) + (SUMMARY_LABEL + Strip(body))
              + Erase(TrimEnd(RustWhitespace, Collapse(after)))
  {
    var b := Strip(body);
    var a, x, c := TrimStart(RustWhitespace, Collapse(before)), SUMMARY_LABEL + Collapse(Neutralize(b)), TrimEnd(RustWhitespace, Collapse(after));
    NumberedBodySurvives(before, body, after);
    ErasingUndoesNeutralize(b);
    EraseConcat(a + x, c);
    EraseConcat(a, x);
  }

  lemma ErasingUndoesNeutralize(b: string)
    requires Free(b, ZW) && !Contains(b, TRIPLE)
    ensures Erase(SUMMARY_LABEL + Collapse(Neutralize(b))) == SUMMARY_LABEL + b
  {
    TagsAreTags();
    DefuseKeepsOut(b, TAGS, TRIPLE);
    DefuseEachProps(b, TAGS);
    EraseConcat(SUMMARY_LABEL, Neutralize(b));
    EraseIdentity(SUMMARY_LABEL);
    EraseIdentity(b);
  }
}
