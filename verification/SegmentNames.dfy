/** Names of the files of the segment store: printing, parsing, classifying paths. */
module SegmentNames {
  import opened Options
  import opened Text

  const COMPACTION_DIR: string := "compaction"
  const INDEX_FILE: string := "INDEX.md"
  const SEGMENT_PREFIX: string := "segment_"
  const SUFFIX: string := ".md"

  function Zeros(k: nat): (s: string)
    ensures |s| == k
  {
    if k == 0 then "" else ['0'] + Zeros(k - 1)
  }

  /** At least three digits. */
  function SegmentLabel(index: nat): string {
    var d := Decimal(index);
    Zeros(if |d| < 3 then 3 - |d| else 0) + d
  }

  function SegmentFilename(index: nat): string { SEGMENT_PREFIX + SegmentLabel(index) + SUFFIX }

  /** Value of a string of digits. */
  function Value(s: string): nat
    requires AllDigits(s)
    decreases |s|
  {
    if s == [] then 0
    else
      AllDigitsConcat(s[..|s| - 1], [s[|s| - 1]]);
      assert s == s[..|s| - 1] + [s[|s| - 1]];
      10 * Value(s[..|s| - 1]) + (s[|s| - 1] as int - '0' as int)
  }

  /** `str::parse::<u64>`: one leading plus sign is accepted; no digits or overflow are not. */
  function ParseU64(s: string): Option<nat> {
    var digits := if s != [] && s[0] == '+' then s[1..] else s;
    if digits != [] && AllDigits(digits) && Value(digits) <= U64_MAX then Some(Value(digits)) else None
  }

  predicate EndsWith(s: string, e: string) { |e| <= |s| && s[|s| - |e|..] == e }

  function ParseSegmentIndex(name: string): Option<nat> {
    if SEGMENT_PREFIX <= name then
      var rest := name[|SEGMENT_PREFIX|..];
      if EndsWith(rest, SUFFIX) then ParseU64(rest[..|rest| - |SUFFIX|]) else None
    else None
  }

  datatype Artifact = Segment(index: nat) | Index | Dir

  predicate IsSlash(c: char) { c == '/' }

  /** `dir` is the last component of `s`. */
  predicate IsComponent(s: string, dir: string) {
    s == dir || (EndsWith(s, dir) && EndsWith(s[..|s| - |dir|], "/"))
  }

  function ClassifyCompactionPath(path: string): Option<Artifact> {
    if IsComponent(TrimEnd(IsSlash, path), COMPACTION_DIR) then Some(Dir)
    else Below(path, RFind(path, COMPACTION_DIR))
  }

  /** Classify by what follows the occurrence at `k`. */
  function Below(path: string, k: int): Option<Artifact>
    requires k == -1 || 0 <= k <= |path| - |COMPACTION_DIR|
  {
    if k == -1 || k + |COMPACTION_DIR| >= |path| || path[k + |COMPACTION_DIR|] != '/' then None
    else
      var rest := path[k + |COMPACTION_DIR| + 1..];
      if ParseSegmentIndex(rest).Some? then Some(Segment(ParseSegmentIndex(rest).value))
      else if rest == INDEX_FILE then Some(Index)
      else None
  }

  // ---------- Numerals ----------

  lemma ValueSnoc(s: string, c: char)
    requires AllDigits(s) && IsDigit(c)
    ensures AllDigits(s + [c]) && Value(s + [c]) == 10 * Value(s) + (c as int - '0' as int)
  {
    AllDigitsConcat(s, [c]);
    assert (s + [c])[..|s|] == s;
  }

  lemma {:induction false} ZerosAreDigits(k: nat, s: string)
    requires AllDigits(s)
    ensures AllDigits(Zeros(k) + s) && Value(Zeros(k) + s) == Value(s)
    decreases k, |s|
  {
    if s != [] {
      var front, c := s[..|s| - 1], s[|s| - 1];
      assert s == front + [c];
      AllDigitsConcat(front, [c]);
      ZerosAreDigits(k, front);
      ValueSnoc(Zeros(k) + front, c);
      ValueSnoc(front, c);
      assert Zeros(k) + s == Zeros(k) + front + [c];
    } else if k > 0 {
      ZerosSnoc(k - 1);
      ZerosAreDigits(k - 1, []);
      assert Zeros(k - 1) + [] == Zeros(k - 1) && Zeros(k) + [] == Zeros(k);
      ValueSnoc(Zeros(k - 1), '0');
    }
  }

  lemma {:induction false} ZerosSnoc(k: nat)
    ensures Zeros(k + 1) == Zeros(k) + ['0']
  {
    if k > 0 {
      ZerosSnoc(k - 1);
    }
  }

  /** Printing then reading gives the number back. */
  lemma {:induction false} DecimalValue(n: nat)
    ensures Value(Decimal(n)) == n
  {
    if n < 10 {
      ValueSnoc([], Digit(n));
      assert [] + [Digit(n)] == [Digit(n)];
    } else {
      DecimalValue(n / 10);
      ValueSnoc(Decimal(n / 10), Digit(n % 10));
    }
  }

  // ---------- Main results ----------

  /** The index is read back from its name with any padding and with a plus sign. */
  lemma {:induction false} AnyPaddingParses(index: nat, pad: nat, plus: bool)
    requires index <= U64_MAX
    ensures ParseSegmentIndex(SEGMENT_PREFIX + ((if plus then "+" else "") + Zeros(pad) + Decimal(index)) + SUFFIX) == Some(index)
  {
    var digits := Zeros(pad) + Decimal(index);
    ZerosAreDigits(pad, Decimal(index));
    DecimalValue(index);
    var s := (if plus then "+" else "") + Zeros(pad) + Decimal(index);
    assert s == if plus then ['+'] + digits else digits;
    assert plus ==> s[1..] == digits;
    FilenameParts(s);
  }

  lemma FilenameParts(s: string)
    ensures ParseSegmentIndex(SEGMENT_PREFIX + s + SUFFIX) == ParseU64(s)
  {
    var name := SEGMENT_PREFIX + s + SUFFIX;
    assert name[|SEGMENT_PREFIX|..] == s + SUFFIX;
    assert (s + SUFFIX)[|s + SUFFIX| - |SUFFIX|..] == SUFFIX;
    assert (s + SUFFIX)[..|s + SUFFIX| - |SUFFIX|] == s;
    assert SEGMENT_PREFIX <= name;
  }

  /** Parsing inverts printing, for every index the width admits. */
  lemma FilenameRoundTrip(index: nat)
    ensures ParseSegmentIndex(SegmentFilename(index)) == if index <= U64_MAX then Some(index) else None
  {
    var d := Decimal(index);
    var pad := if |d| < 3 then 3 - |d| else 0;
    FilenameParts(SegmentLabel(index));
    ZerosAreDigits(pad, d);
    DecimalValue(index);
    assert SegmentLabel(index)[0] != '+';
  }

  /** What parses consists of the prefix, a number and the suffix. */
  lemma ParsedName(name: string)
    requires ParseSegmentIndex(name).Some?
    ensures Free(name, 'c') && Free(name, '/') && EndsWith(name, "d")
  {
    var s := ParsedNumber(name, SEGMENT_PREFIX, SUFFIX);
    NumberIsFree(s);
    ConstantsAreFree();
    FreeAround(SEGMENT_PREFIX, s, SUFFIX, 'c');
    FreeAround(SEGMENT_PREFIX, s, SUFFIX, '/');
    LastOf(SEGMENT_PREFIX + s, SUFFIX);
  }

  lemma ParsedNumber(name: string, prefix: string, suffix: string) returns (s: string)
    requires prefix <= name && EndsWith(name[|prefix|..], suffix)
    ensures name == prefix + s + suffix
    ensures s == name[|prefix|..][..|name| - |prefix| - |suffix|]
  {
    var rest := name[|prefix|..];
    s := rest[..|rest| - |suffix|];
    assert rest == s + rest[|rest| - |suffix|..];
    assert name == prefix + rest;
  }

  lemma NumberIsFree(s: string)
    requires ParseU64(s).Some?
    ensures Free(s, 'c') && Free(s, '/')
  {
    var digits := if s[0] == '+' then s[1..] else s;
    DigitsAreFree(digits);
    assert s == [s[0]] + s[1..];
  }

  lemma ConstantsAreFree()
    ensures Free(SEGMENT_PREFIX, 'c') && Free(SEGMENT_PREFIX, '/') && Free(SUFFIX, 'c') && Free(SUFFIX, '/')
  {
  }

  lemma LastOf(a: string, e: string)
    requires |e| > 0 && e[|e| - 1] == 'd'
    ensures EndsWith(a + e, "d")
  {
    assert (a + e)[|a + e| - 1..] == [e[|e| - 1]];
  }

  lemma FreeAround(a: string, b: string, c: string, x: char)
    requires Free(a, x) && Free(b, x) && Free(c, x)
    ensures Free(a + b + c, x)
  {
  }

  lemma {:induction false} DigitsAreFree(s: string)
    requires AllDigits(s)
    ensures Free(s, 'c') && Free(s, '/')
  {
    if s != [] {
      DigitsAreFree(s[1..]);
      assert s == [s[0]] + s[1..];
    }
  }

  lemma {:induction false} RFindSkips(front: string, s: string, p: string)
    requires p != [] && RFind(s, p) >= 0
    ensures RFind(front + s, p) == |front| + RFind(s, p)
  {
    if front == [] {
      assert front + s == s;
    } else {
      assert (front + s)[1..] == front[1..] + s;
      RFindSkips(front[1..], s, p);
    }
  }

  lemma {:induction false} RFindFree(s: string, p: string)
    requires p != [] && Free(s, p[0])
    ensures RFind(s, p) == -1
  {
    if s != [] {
      RFindFree(s[1..], p);
    }
  }

  /** Behind the directory's name there is no further occurrence of it. */
  lemma DirIsLast(tail: string)
    requires Free(tail, 'c')
    ensures RFind(COMPACTION_DIR + tail, COMPACTION_DIR) == 0
  {
    var p := COMPACTION_DIR;
    var s := p + tail;
    RFindFree(s[6..], p) by {
      assert forall k | 6 <= k < |s| :: s[k] == (if k < 10 then p[k] else tail[k - 10]);
    }
    NotHere(s, p, 5);
    NotHere(s, p, 4);
    NotHere(s, p, 3);
    NotHere(s, p, 2);
    NotHere(s, p, 1);
    assert s[0..] == s && s[0..][1..] == s[1..];
  }

  lemma NotHere(s: string, p: string, k: nat)
    requires |p| > 1 && k + 1 < |s| && (s[k] != p[0] || s[k + 1] != p[1]) && RFind(s[k + 1..], p) == -1
    ensures RFind(s[k..], p) == -1
  {
    assert s[k..][1..] == s[k + 1..];
    assert s[k..][0] == s[k] && s[k..][1] == s[k + 1];
  }

  /** A path not ending in a slash or in the directory's last letter is not the directory. */
  lemma NotTheDir(path: string)
    requires path != [] && path[|path| - 1] != '/' && path[|path| - 1] != 'n'
    ensures !IsComponent(TrimEnd(IsSlash, path), COMPACTION_DIR)
  {
    assert TrimEnd(IsSlash, path) == path;
    NotAComponent(path, COMPACTION_DIR);
  }

  lemma NotAComponent(s: string, dir: string)
    requires s != [] && |dir| == 10 && dir[9] == 'n' && s[|s| - 1] != 'n'
    ensures !IsComponent(s, dir)
  {
    NotAnEnding(s, dir);
  }

  lemma NotAnEnding(s: string, e: string)
    requires s != [] && e != [] && s[|s| - 1] != e[|e| - 1]
    ensures !EndsWith(s, e) && s != e
  {
    if |e| <= |s| {
      assert s[|s| - |e|..][|e| - 1] == s[|s| - 1];
    }
  }

  /** Any path that puts a parseable name below a `compaction` component, wherever that is,
      is that segment. */
  lemma SegmentPathClassifies(prefix: string, name: string)
    requires ParseSegmentIndex(name).Some?
    ensures ClassifyCompactionPath(prefix + (COMPACTION_DIR + (['/'] + name))) == Some(Segment(ParseSegmentIndex(name).value))
  {
    ParsedName(name);
    var tail := ['/'] + name;
    var path := prefix + (COMPACTION_DIR + tail);
    DirIsLast(tail);
    RFindSkips(prefix, COMPACTION_DIR + tail, COMPACTION_DIR);
    assert path[|path| - 1] == name[|name| - 1] == 'd' by { assert name[|name| - 1..] == "d"; }
    NotTheDir(path);
    var k := |prefix|;
    assert path[k + |COMPACTION_DIR|] == tail[0];
    assert path[k + |COMPACTION_DIR| + 1..] == name;
  }

  /** The round trip on whole paths: for every directory prefix and index. */
  lemma PathRoundTrip(prefix: string, index: nat)
    requires index <= U64_MAX
    ensures ClassifyCompactionPath(prefix + (COMPACTION_DIR + (['/'] + SegmentFilename(index)))) == Some(Segment(index))
  {
    FilenameRoundTrip(index);
    SegmentPathClassifies(prefix, SegmentFilename(index));
  }

  /** Splitting at the last occurrence finds a segment exactly when some split does. */
  lemma ClassifiesSegmentIff(path: string, index: nat)
    ensures ClassifyCompactionPath(path) == Some(Segment(index)) <==>
            exists prefix, name :: path == prefix + (COMPACTION_DIR + (['/'] + name)) && ParseSegmentIndex(name) == Some(index)
  {
    if ClassifyCompactionPath(path) == Some(Segment(index)) {
      var prefix, name := SegmentSplits(path, index);
    }
    forall prefix, name | path == prefix + (COMPACTION_DIR + (['/'] + name)) && ParseSegmentIndex(name) == Some(index)
      ensures ClassifyCompactionPath(path) == Some(Segment(index))
    {
      SegmentPathClassifies(prefix, name);
    }
  }

  lemma SegmentSplits(path: string, index: nat) returns (prefix: string, name: string)
    requires ClassifyCompactionPath(path) == Some(Segment(index))
    ensures path == prefix + (COMPACTION_DIR + (['/'] + name)) && ParseSegmentIndex(name) == Some(index)
  {
    var k := RFind(path, COMPACTION_DIR);
    RFindSound(path, COMPACTION_DIR);
    SplitAt(path, k, COMPACTION_DIR);
    prefix, name := path[..k], path[k + |COMPACTION_DIR| + 1..];
  }

  lemma SplitAt(path: string, k: nat, dir: string)
    requires k + |dir| < |path| && dir <= path[k..] && path[k + |dir|] == '/'
    ensures path == path[..k] + (dir + (['/'] + path[k + |dir| + 1..]))
  {
    assert path[k..][..|dir|] == dir;
  }

  // ---------- All other answers ----------

  /** The label has the value of the index, at least three digits, and no zero in front
      that it does not need. */
  lemma LabelShape(index: nat)
    ensures var l := SegmentLabel(index);
            && SegmentFilename(index) == "segment_" + l + ".md"
            && AllDigits(l) && Value(l) == index && |l| >= 3 && (|l| > 3 ==> l[0] != '0')
  {
    var d := Decimal(index);
    ZerosAreDigits(if |d| < 3 then 3 - |d| else 0, d);
    DecimalValue(index);
    if |d| > 3 {
      DecimalLeads(index);
      assert SegmentLabel(index) == d;
    }
  }

  lemma {:induction false} DecimalLeads(n: nat)
    requires n > 0
    ensures Decimal(n)[0] != '0'
  {
    if n >= 10 { DecimalLeads(n / 10); }
  }

  /** Exactly which names have an index: digits, possibly behind a plus sign, between the
      prefix and the suffix, with a value of 64 bits. */
  lemma ParsesIff(name: string, index: nat)
    ensures ParseSegmentIndex(name) == Some(index) <==> IsNameOf(name, index)
  {
    if ParseSegmentIndex(name) == Some(index) {
      var s := ParsedNumber(name, SEGMENT_PREFIX, SUFFIX);
      var digits := if s != [] && s[0] == '+' then s[1..] else s;
      if digits != s { assert s == "+" + digits; }
      assert Names(name, digits, index);
    }
    if IsNameOf(name, index) {
      var digits :| Names(name, digits, index);
      NamesParse(name, digits, index);
    }
  }

  ghost predicate IsNameOf(name: string, index: nat) { exists digits :: Names(name, digits, index) }

  predicate Names(name: string, digits: string, index: nat) {
    && digits != [] && AllDigits(digits) && Value(digits) == index <= U64_MAX
    && (name == "segment_" + digits + ".md" || name == "segment_" + ("+" + digits) + ".md")
  }

  lemma NamesParse(name: string, digits: string, index: nat)
    requires Names(name, digits, index)
    ensures ParseSegmentIndex(name) == Some(index)
  {
    FilenameParts(digits);
    FilenameParts("+" + digits);
    assert ("+" + digits)[1..] == digits && IsDigit(digits[0]);
  }

  /** A path is the directory itself exactly if, trailing slashes aside, its last component
      is the directory's name. */
  lemma ClassifiesDirIff(path: string)
    ensures ClassifyCompactionPath(path) == Some(Dir) <==> exists prefix, slashes :: IsDirPath(path, prefix, slashes)
  {
    if ClassifyCompactionPath(path) == Some(Dir) {
      var prefix, slashes := DirSplits(path);
    }
    if exists prefix, slashes :: IsDirPath(path, prefix, slashes) {
      var prefix, slashes :| IsDirPath(path, prefix, slashes);
      DirPathClassifies(prefix, slashes);
    }
  }

  lemma {:induction false} DirSplits(path: string) returns (prefix: string, slashes: string)
    requires ClassifyCompactionPath(path) == Some(Dir)
    ensures IsDirPath(path, prefix, slashes)
  {
    hide TrimEnd, RFind, Below, IsComponent;
    var s := TrimEnd(IsSlash, path);
    TrimEndSplits(path);
    NotBelow(path, RFind(path, COMPACTION_DIR));
    prefix := ComponentSplits(s, COMPACTION_DIR);
    slashes := path[|s|..];
  }

  lemma ComponentSplits(s: string, dir: string) returns (prefix: string)
    requires IsComponent(s, dir)
    ensures s == prefix + dir && (prefix == [] || prefix[|prefix| - 1] == '/')
  {
    if s == dir {
      prefix := [];
    } else {
      prefix := s[..|s| - |dir|];
      assert prefix[|prefix| - 1..] == "/";
    }
  }

  lemma NotBelow(path: string, k: int)
    requires k == -1 || 0 <= k <= |path| - |COMPACTION_DIR|
    ensures Below(path, k) != Some(Dir)
  {
  }

  lemma {:induction false} DirPathClassifies(prefix: string, slashes: string)
    requires IsDirPath(prefix + "compaction" + slashes, prefix, slashes)
    ensures ClassifyCompactionPath(prefix + "compaction" + slashes) == Some(Dir)
  {
    hide TrimEnd, RFind;
    DirPathTrims(prefix, slashes);
    EndsWithDir(prefix);
  }

  lemma EndsWithDir(prefix: string)
    requires prefix == [] || prefix[|prefix| - 1] == '/'
    ensures IsComponent(prefix + COMPACTION_DIR, COMPACTION_DIR)
  {
    var s := prefix + COMPACTION_DIR;
    assert s[|prefix|..] == COMPACTION_DIR && s[..|prefix|] == prefix;
    if prefix == [] {
      assert s == COMPACTION_DIR;
    } else {
      assert prefix[|prefix| - 1..] == "/";
    }
  }

  predicate IsDirPath(path: string, prefix: string, slashes: string) {
    && path == prefix + "compaction" + slashes
    && (prefix == [] || prefix[|prefix| - 1] == '/')
    && forall k | 0 <= k < |slashes| :: slashes[k] == '/'
  }

  lemma {:induction false} TrimEndSplits(path: string)
    ensures var s := TrimEnd(IsSlash, path);
            && s <= path && path == s + path[|s|..] && forall k | |s| <= k < |path| :: path[k] == '/'
    decreases |path|
  {
    if path != [] && IsSlash(path[|path| - 1]) {
      TrimEndSplits(path[..|path| - 1]);
    }
  }

  lemma DirPathTrims(prefix: string, slashes: string)
    requires forall k | 0 <= k < |slashes| :: slashes[k] == '/'
    ensures TrimEnd(IsSlash, prefix + "compaction" + slashes) == prefix + COMPACTION_DIR
  {
    var s := prefix + COMPACTION_DIR;
    SlashesAreBlank(slashes);
    TrimEndSkips(IsSlash, s, slashes);
    assert s[|s| - 1] == 'n';
  }

  lemma {:induction false} SlashesAreBlank(slashes: string)
    requires forall k | 0 <= k < |slashes| :: slashes[k] == '/'
    ensures Blank(IsSlash, slashes)
  {
    if slashes != [] {
      assert forall k | 0 <= k < |slashes[1..]| :: slashes[1..][k] == slashes[k + 1];
      SlashesAreBlank(slashes[1..]);
    }
  }

  /** A path is the index exactly if it ends with the directory's name, a slash and the
      name of the index. */
  lemma ClassifiesIndexIff(path: string)
    ensures ClassifyCompactionPath(path) == Some(Index) <==> exists prefix :: path == prefix + "compaction/INDEX.md"
  {
    if ClassifyCompactionPath(path) == Some(Index) {
      var prefix := IndexSplits(path);
    }
    if exists prefix :: path == prefix + "compaction/INDEX.md" {
      var prefix :| path == prefix + "compaction/INDEX.md";
      IndexPathClassifies(prefix);
    }
  }

  lemma {:induction false} IndexSplits(path: string) returns (prefix: string)
    requires ClassifyCompactionPath(path) == Some(Index)
    ensures path == prefix + "compaction/INDEX.md"
  {
    hide RFind, IsComponent;
    var k := RFind(path, COMPACTION_DIR);
    RFindSound(path, COMPACTION_DIR);
    SplitAt(path, k, COMPACTION_DIR);
    prefix := path[..k];
    assert COMPACTION_DIR + (['/'] + INDEX_FILE) == "compaction/INDEX.md";
  }

  lemma IndexPathClassifies(prefix: string)
    ensures ClassifyCompactionPath(prefix + "compaction/INDEX.md") == Some(Index)
  {
    var tail := ['/'] + INDEX_FILE;
    var below := COMPACTION_DIR + tail;
    var path := prefix + below;
    assert below == "compaction/INDEX.md";
    assert path[|path| - 1] == below[|below| - 1] == 'd';
    NotTheDir(path);
    DirIsLast(tail);
    RFindSkips(prefix, below, COMPACTION_DIR);
    assert path[|prefix| + |COMPACTION_DIR| + 1..] == INDEX_FILE;
    IndexIsNoSegment();
  }

  lemma IndexIsNoSegment()
    ensures ParseSegmentIndex(INDEX_FILE).None?
  {
    assert INDEX_FILE[0] == 'I' && SEGMENT_PREFIX[0] == 's';
  }
}
