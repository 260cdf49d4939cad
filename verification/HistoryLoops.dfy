/** The loops of `repair_history` over a mutable item vector.  Each pass is proved
to leave exactly the conversation its run rewrite describes. */
module HistoryLoops {
  import opened Conversation
  import opened RepairHistory

  // ---------- Where a scan may resume ----------

  /** After a whole run, scanning on with no pending calls loses nothing, as long as
      `f` does nothing to runs without declared calls. */
  ghost predicate IgnoresUnowned(f: RunMap) {
    forall r :: AllResults(r) ==> f([], r) == r
  }

  /** The finished part of a scan at `i`, followed by what the scan still owes. */
  function Progress(f: RunMap, s: seq<Item>, i: nat): seq<Item>
    requires i <= |s|
  {
    s[..i] + MapRuns(f, [], s[i..])
  }

  lemma ProgressEnds(f: RunMap, s: seq<Item>)
    requires IgnoresUnowned(f)
    ensures Progress(f, s, 0) == MapRuns(f, [], s) && Progress(f, s, |s|) == s
  {
    var none: seq<Item> := [];
    assert s[0..] == s && s[..0] == none && s[..|s|] == s && s[|s|..] == none;
    assert AllResults(none) && MapRuns(f, [], none) == f([], none[..0]) + [];
    assert none[..0] == none && f([], none) == none;
  }

  lemma {:induction false} ScanOne(f: RunMap, s: seq<Item>)
    requires s != [] && CallsOf(s[0]) == []
    requires IgnoresUnowned(f)
    ensures MapRuns(f, [], s) == [s[0]] + MapRuns(f, [], s[1..])
  {
    var none: seq<Item> := [];
    if s[0].ToolResult? {
      var m := RunLen(s[1..]);
      var run, rest := s[1..][..m], s[1..][m..];
      assert s == ([s[0]] + run) + rest && s[1..] == run + rest;
      ScanResult(f, s[0], run, rest);
    } else {
      assert AllResults(none) && none + s == s;
      UnownedRun(f, none, s);
    }
  }

  lemma {:induction false} ScanResult(f: RunMap, x: Item, run: seq<Item>, rest: seq<Item>)
    requires IgnoresUnowned(f) && x.ToolResult? && AllResults(run) && (rest == [] || !rest[0].ToolResult?)
    ensures MapRuns(f, [], [x] + run + rest) == [x] + MapRuns(f, [], run + rest)
  {
    UnownedRun(f, [x] + run, rest);
    UnownedRun(f, run, rest);
    Assoc4([x], run, Behind(f, rest), []);
  }

  lemma {:induction false} UnownedRun(f: RunMap, run: seq<Item>, rest: seq<Item>)
    requires IgnoresUnowned(f) && AllResults(run) && (rest == [] || !rest[0].ToolResult?)
    ensures MapRuns(f, [], run + rest) == run + Behind(f, rest)
  {
    MapRunsStep(f, [], run, rest);
    assert f([], run) == run;
  }

  lemma NoRunAhead(f: RunMap, calls: seq<ToolCall>, s: seq<Item>)
    requires s == [] || !s[0].ToolResult?
    requires f(calls, []) == []
    ensures MapRuns(f, calls, s) == if s == [] then [] else [s[0]] + MapRuns(f, CallsOf(s[0]), s[1..])
  {
    assert s[..0] == [];
  }

  lemma {:induction false} RunAhead(f: RunMap, x: Item, run: seq<Item>, rest: seq<Item>)
    requires !x.ToolResult? && AllResults(run) && (rest == [] || !rest[0].ToolResult?)
    requires f([], []) == []
    ensures MapRuns(f, [], [x] + run + rest) == [x] + MapRuns(f, CallsOf(x), run + rest)
  {
    assert ([x] + run + rest)[1..] == run + rest;
    NoRunAhead(f, [], [x] + run + rest);
  }

  lemma {:induction false} ScanRun(f: RunMap, x: Item, run: seq<Item>, rest: seq<Item>)
    requires !x.ToolResult? && AllResults(run) && (rest == [] || !rest[0].ToolResult?)
    requires IgnoresUnowned(f)
    ensures MapRuns(f, [], [x] + run + rest) == [x] + f(CallsOf(x), run) + MapRuns(f, [], rest)
  {
    assert AllResults([]) && f([], []) == [];
    RunAhead(f, x, run, rest);
    MapRunsStep(f, CallsOf(x), run, rest);
    NoRunAhead(f, [], rest);
    Assoc4([x], f(CallsOf(x), run), MapRuns(f, [], rest), []);
  }

  lemma ProgressOne(f: RunMap, s: seq<Item>, i: nat)
    requires i < |s| && CallsOf(s[i]) == [] && IgnoresUnowned(f)
    ensures Progress(f, s, i + 1) == Progress(f, s, i)
  {
    Cut(s, i, i + 1);
    assert s[i..][0] == s[i] && s[i..][1..] == s[i + 1..];
    ScanOne(f, s[i..]);
    Assoc4(s[..i], [s[i]], MapRuns(f, [], s[i + 1..]), []);
  }

  lemma ProgressRun(f: RunMap, s: seq<Item>, i: nat, end: nat)
    requires i < end <= |s| && !s[i].ToolResult? && AllResults(s[i + 1..end])
    requires end < |s| ==> !s[end].ToolResult?
    requires IgnoresUnowned(f)
    ensures Progress(f, s, i) == s[..i + 1] + f(CallsOf(s[i]), s[i + 1..end]) + MapRuns(f, [], s[end..])
    ensures f(CallsOf(s[i]), s[i + 1..end]) == s[i + 1..end] ==> Progress(f, s, i) == Progress(f, s, end)
  {
    Cut(s, i, end);
    ScanRun(f, s[i], s[i + 1..end], s[end..]);
    var out, rest := f(CallsOf(s[i]), s[i + 1..end]), MapRuns(f, [], s[end..]);
    Assoc4(s[..i], [s[i]], out, rest);
  }

  lemma Assoc4<T>(a: seq<T>, b: seq<T>, c: seq<T>, d: seq<T>)
    ensures a + (b + c + d) == (a + b) + c + d
    ensures a + (b + (c + d)) == a + (b + c) + d
    ensures a + (b + c + d) == a + (b + c) + d
    ensures a + (b + c) == (a + b) + c
  {
  }

  lemma DropAt<T>(a: seq<T>, x: T, c: seq<T>, d: seq<T>)
    ensures var s := a + [x] + c + d;
            s[..|a|] + s[|a| + 1..] == a + c + d
  {
  }

  lemma Cut(s: seq<Item>, i: nat, end: nat)
    requires i < end <= |s|
    ensures s[i..] == [s[i]] + s[i + 1..end] + s[end..]
    ensures s[i..end] == [s[i]] + s[i + 1..end]
    ensures s[..i + 1] == s[..i] + [s[i]]
    ensures s[..end] == s[..i + 1] + s[i + 1..end]
  {
  }

  // ---------- Splicing in the recorded repairs ----------

  /** Insert every recorded block, last position first. */
  function Splice(s: seq<Item>, reps: seq<(nat, seq<Item>)>): seq<Item>
    requires forall r | r in reps :: r.0 <= |s|
    decreases |reps|
  {
    if reps == [] then s
    else
      var (at, block) := reps[|reps| - 1];
      Splice(s[..at] + block + s[at..], reps[..|reps| - 1])
  }

  function TotalSize(reps: seq<(nat, seq<Item>)>): nat {
    if reps == [] then 0 else TotalSize(reps[..|reps| - 1]) + |reps[|reps| - 1].1|
  }

  lemma {:induction false} SplicePrefix(a: seq<Item>, b: seq<Item>, reps: seq<(nat, seq<Item>)>)
    requires forall r | r in reps :: r.0 <= |a|
    ensures Splice(a + b, reps) == Splice(a, reps) + b
    decreases |reps|
  {
    if reps != [] {
      var (at, block) := reps[|reps| - 1];
      assert reps[|reps| - 1] in reps;
      assert (a + b)[..at] + block + (a + b)[at..] == (a[..at] + block + a[at..]) + b;
      SplicePrefix(a[..at] + block + a[at..], b, reps[..|reps| - 1]);
    }
  }

  lemma SpliceOneMore(a: seq<Item>, reps: seq<(nat, seq<Item>)>, run: seq<Item>, block: seq<Item>)
    requires forall r | r in reps :: r.0 <= |a|
    ensures var more := reps + [(|a| + |run|, block)];
            Splice(a + run, more) == Splice(a, reps) + run + block &&
            TotalSize(more) == TotalSize(reps) + |block|
  {
    var more := reps + [(|a| + |run|, block)];
    assert more[..|more| - 1] == reps;
    assert (a + run)[..|a| + |run|] + block + (a + run)[|a| + |run|..] == a + (run + block);
    SplicePrefix(a, run + block, reps);
  }

  // ---------- Steps of the loops ----------

  lemma DedupIgnoresUnowned()
    ensures IgnoresUnowned(DedupRun) && IgnoresUnowned(FillRun)
  {
  }

  /** Removing duplicates from the run does not change what the rescan computes. */
  lemma RescanSame(s: seq<Item>, i: nat, end: nat, s': seq<Item>)
    requires i < end <= |s| && !s[i].ToolResult? && CallsOf(s[i]) != [] && AllResults(s[i + 1..end])
    requires end < |s| ==> !s[end].ToolResult?
    requires s' == s[..i + 1] + KeepLast(s[i + 1..end]) + s[end..]
    ensures Progress(DedupRun, s', i) == Progress(DedupRun, s, i)
  {
    var run := s[i + 1..end];
    var kept := KeepLast(run);
    KeepLastProps(run);
    KeepLastProps(kept);
    DedupIgnoresUnowned();
    ProgressRun(DedupRun, s, i, end);
    var end' := i + 1 + |kept|;
    assert s'[i + 1..end'] == kept && s'[end'..] == s[end..] && s'[i] == s[i] && s'[..i + 1] == s[..i + 1];
    assert end' < |s'| ==> s'[end'] == s[end];
    ProgressRun(DedupRun, s', i, end');
  }

  function NextIds(ids: set<string>, x: Item): set<string> {
    if x.ToolResult? then ids else CallIds(CallsOf(x))
  }

  lemma StripStep(s: seq<Item>, i: nat, ids: set<string>, kept: seq<Item>, stripped: seq<string>)
    requires i < |s|
    ensures var drop := s[i].ToolResult? && s[i].id !in ids;
            kept + StripItems(ids, s[i..])
              == (if drop then kept else kept + [s[i]]) + StripItems(NextIds(ids, s[i]), s[i + 1..]) &&
            stripped + StrippedIds(ids, s[i..])
              == (if drop then stripped + [s[i].id] else stripped) + StrippedIds(NextIds(ids, s[i]), s[i + 1..])
  {
    var x, next := s[i], NextIds(ids, s[i]);
    assert s[i..][0] == x && s[i..][1..] == s[i + 1..];
    Assoc4(kept, [x], StripItems(next, s[i + 1..]), []);
    if x.ToolResult? {
      Assoc4(stripped, [x.id], StrippedIds(next, s[i + 1..]), []);
    }
  }

  /** What the recorded repairs and the scan still owed amount to. */
  function Owed(s: seq<Item>, i: nat, reps: seq<(nat, seq<Item>)>): seq<Item>
    requires i <= |s| && forall r | r in reps :: r.0 <= i
  {
    Splice(s[..i], reps) + MapRuns(FillRun, [], s[i..])
  }

  ghost predicate Recorded(s: seq<Item>, i: nat, reps: seq<(nat, seq<Item>)>) {
    && i <= |s|
    && (forall r | r in reps :: r.0 <= i)
    && Owed(s, i, reps) == Fill(s)
    && |Splice(s[..i], reps)| == i + TotalSize(reps)
  }

  lemma {:induction false} OwedRun(s: seq<Item>, i: nat, j: nat, reps: seq<(nat, seq<Item>)>, block: seq<Item>)
    requires i < j <= |s| && !s[i].ToolResult? && AllResults(s[i + 1..j]) && (j < |s| ==> !s[j].ToolResult?)
    requires forall r | r in reps :: r.0 <= i
    requires block == Backfill(CallsOf(s[i]), ResultIds(s[i + 1..j]))
    ensures Owed(s, j, reps + [(j, block)]) == Owed(s, i, reps)
    ensures block == [] ==> Owed(s, j, reps) == Owed(s, i, reps)
  {
    var run, rest := s[i + 1..j], s[j..];
    RecordRun(s, i, j, reps, block);
    Cut(s, i, j);
    DedupIgnoresUnowned();
    ScanRun(FillRun, s[i], run, rest);
    var head, tail := Splice(s[..i], reps), MapRuns(FillRun, [], rest);
    RegroupRecorded(head, [s[i]], run, block, tail);
  }

  lemma RegroupRecorded<T>(a: seq<T>, b: seq<T>, c: seq<T>, d: seq<T>, e: seq<T>)
    ensures a + (b + (c + d) + e) == (a + (b + c) + d) + e
    ensures d == [] ==> a + (b + (c + d) + e) == (a + (b + c)) + e
  {
  }

  lemma {:induction false} RecordedRun(s: seq<Item>, i: nat, j: nat, reps: seq<(nat, seq<Item>)>, block: seq<Item>)
    requires Recorded(s, i, reps)
    requires i < j <= |s| && !s[i].ToolResult? && AllResults(s[i + 1..j]) && (j < |s| ==> !s[j].ToolResult?)
    requires block == Backfill(CallsOf(s[i]), ResultIds(s[i + 1..j]))
    ensures block == [] ==> Recorded(s, j, reps)
    ensures block != [] ==> Recorded(s, j, reps + [(j, block)])
  {
    OwedRun(s, i, j, reps, block);
    RecordedSize(s, i, j, reps, block);
  }

  lemma RecordedSize(s: seq<Item>, i: nat, j: nat, reps: seq<(nat, seq<Item>)>, block: seq<Item>)
    requires i < j <= |s| && forall r | r in reps :: r.0 <= i
    requires |Splice(s[..i], reps)| == i + TotalSize(reps)
    ensures |Splice(s[..j], reps + [(j, block)])| == j + TotalSize(reps + [(j, block)])
    ensures |Splice(s[..j], reps)| == j + TotalSize(reps)
  {
    RecordRun(s, i, j, reps, block);
  }

  lemma RecordedStarts(s: seq<Item>)
    ensures Recorded(s, 0, [])
  {
    assert s[..0] == [] && s[0..] == s;
  }

  lemma {:induction false} RecordedEnds(s: seq<Item>, reps: seq<(nat, seq<Item>)>)
    requires Recorded(s, |s|, reps)
    ensures Splice(s, reps) == Fill(s)
    ensures |Fill(s)| == |s| + TotalSize(reps)
  {
    DedupIgnoresUnowned();
    ProgressEnds(FillRun, []);
    assert s[..|s|] == s && s[|s|..] == [];
  }

  lemma RecordedOne(s: seq<Item>, i: nat, reps: seq<(nat, seq<Item>)>)
    requires Recorded(s, i, reps) && i < |s| && CallsOf(s[i]) == []
    ensures Recorded(s, i + 1, reps)
  {
    OwedOne(s, i, reps);
  }

  lemma OwedOne(s: seq<Item>, i: nat, reps: seq<(nat, seq<Item>)>)
    requires i < |s| && CallsOf(s[i]) == []
    requires forall r | r in reps :: r.0 <= i
    ensures Owed(s, i + 1, reps) == Owed(s, i, reps)
    ensures |Splice(s[..i + 1], reps)| == |Splice(s[..i], reps)| + 1
  {
    Cut(s, i, i + 1);
    SplicePrefix(s[..i], [s[i]], reps);
    DedupIgnoresUnowned();
    assert s[i..][0] == s[i] && s[i..][1..] == s[i + 1..];
    ScanOne(FillRun, s[i..]);
    Assoc4(Splice(s[..i], reps), [s[i]], MapRuns(FillRun, [], s[i + 1..]), []);
  }

  /** The splice invariant over one recorded run. */
  lemma RecordRun(s: seq<Item>, i: nat, j: nat, reps: seq<(nat, seq<Item>)>, block: seq<Item>)
    requires i < j <= |s| && forall r | r in reps :: r.0 <= i
    ensures Splice(s[..j], reps + [(j, block)]) == Splice(s[..i], reps) + s[i..j] + block
    ensures TotalSize(reps + [(j, block)]) == TotalSize(reps) + |block|
    ensures Splice(s[..j], reps) == Splice(s[..i], reps) + s[i..j]
  {
    assert s[..j] == s[..i] + s[i..j];
    SpliceOneMore(s[..i], reps, s[i..j], block);
    SplicePrefix(s[..i], s[i..j], reps);
  }

  /** The id of the result at `k` occurs again before `end`. */
  ghost predicate RepeatsLater(s: seq<Item>, k: nat, end: nat)
    requires k < end <= |s| && s[k].ToolResult?
  {
    exists m | k < m < end :: s[m].ToolResult? && s[m].id == s[k].id
  }

  /** Mark every result of the run `[start, end)` whose id occurs again later in it. */
  method MarkEarlierDuplicates(s: seq<Item>, start: nat, end: nat) returns (toRemove: set<nat>)
    requires start <= end <= |s| && forall k | start <= k < end :: s[k].ToolResult?
    ensures forall k: nat :: k in toRemove <==> start <= k < end && RepeatsLater(s, k, end)
  {
    var seen: map<string, nat> := map[];
    toRemove := {};
    for idx := start to end
      invariant forall id :: id in seen ==> start <= seen[id] < idx && s[seen[id]].id == id
      invariant forall k | start <= k < idx :: s[k].id in seen && k <= seen[s[k].id]
      invariant forall k: nat :: k in toRemove <==> start <= k < idx && k < seen[s[k].id]
    {
      var id := s[idx].id;
      if id in seen {
        toRemove := toRemove + {seen[id]};
      }
      seen := seen[id := idx];
    }
  }

  /** Remove the marked positions of `[start, end)`, from the back. */
  method RemoveMarked(s: seq<Item>, start: nat, end: nat, toRemove: set<nat>) returns (out: seq<Item>)
    requires start <= end <= |s| && forall k | start <= k < end :: s[k].ToolResult?
    requires forall k: nat :: k in toRemove <==> start <= k < end && RepeatsLater(s, k, end)
    ensures out == s[..start] + KeepLast(s[start..end]) + s[end..]
  {
    out := s;
    var k := end;
    assert s[end..end] == [];
    while k > start
      invariant start <= k <= end
      invariant out == s[..k] + KeepLast(s[k..end]) + s[end..]
    {
      k := k - 1;
      LaterDuplicate(s, k, end);
      KeepLastStep(s, k, end, out);
      if k in toRemove {
        out := out[..k] + out[k + 1..];
      }
    }
  }

  /** One step of the removal loop: dropping position `k` or leaving it. */
  lemma KeepLastStep(s: seq<Item>, k: nat, end: nat, out: seq<Item>)
    requires k < end <= |s| && s[k].ToolResult?
    requires out == s[..k + 1] + KeepLast(s[k + 1..end]) + s[end..]
    ensures if s[k].id in ResultIds(s[k + 1..end])
            then out[..k] + out[k + 1..] == s[..k] + KeepLast(s[k..end]) + s[end..]
            else out == s[..k] + KeepLast(s[k..end]) + s[end..]
  {
    Cut(s, k, end);
    KeepLastCons(s[k], s[k + 1..end]);
    DropAt(s[..k], s[k], KeepLast(s[k + 1..end]), s[end..]);
    Assoc4(s[..k], [s[k]], KeepLast(s[k + 1..end]), s[end..]);
  }

  lemma KeepLastCons(x: Item, run: seq<Item>)
    requires x.ToolResult?
    ensures KeepLast([x] + run) == if x.id in ResultIds(run) then KeepLast(run) else [x] + KeepLast(run)
  {
    assert ([x] + run)[1..] == run;
  }

  lemma LaterDuplicate(s: seq<Item>, k: nat, end: nat)
    requires k < end <= |s| && forall m | k <= m < end :: s[m].ToolResult?
    ensures s[k].id in ResultIds(s[k + 1..end]) <==> RepeatsLater(s, k, end)
  {
    var tail := s[k + 1..end];
    ResultIdsByPosition(tail, s[k].id);
    if RepeatsLater(s, k, end) {
      var m :| k < m < end && s[m].ToolResult? && s[m].id == s[k].id;
      assert tail[m - k - 1].id == s[k].id;
    }
  }

  /** End of the block of tool results that starts at `start`. */
  method RunEnd(s: seq<Item>, start: nat) returns (end: nat)
    requires start <= |s|
    ensures start <= end <= |s| && (end < |s| ==> !s[end].ToolResult?)
    ensures forall k | start <= k < end :: s[k].ToolResult?
    ensures AllResults(s[start..end])
  {
    end := start;
    while end < |s| && s[end].ToolResult?
      invariant start <= end <= |s|
      invariant forall k | start <= k < end :: s[k].ToolResult?
      invariant AllResults(s[start..end])
    {
      end := end + 1;
    }
  }

  /** The ids answered in `[start, end)`. */
  method AnsweredIds(s: seq<Item>, start: nat, end: nat) returns (answered: set<string>)
    requires start <= end <= |s| && AllResults(s[start..end])
    ensures answered == ResultIds(s[start..end])
  {
    answered := {};
    for j := start to end
      invariant answered == ResultIds(s[start..j])
    {
      assert s[j] == s[start..end][j - start];
      assert s[start..j + 1] == s[start..j] + [s[j]];
      IdsOfConcat(s[start..j], [s[j]]);
      assert ResultIds([s[j]]) == {s[j].id};
      answered := answered + {s[j].id};
    }
  }

  /** Record what the run after the assistant at `i` lacks; `j` is where the run ends. */
  method RecordAt(s: seq<Item>, i: nat, before: seq<(nat, seq<Item>)>)
      returns (j: nat, repairs: seq<(nat, seq<Item>)>)
    requires Recorded(s, i, before) && i < |s| && s[i].Assistant?
    ensures i < j && Recorded(s, j, repairs)
  {
    j := RunEnd(s, i + 1);
    var answered := AnsweredIds(s, i + 1, j);
    var synthetic := Backfill(s[i].calls, answered);
    RecordedRun(s, i, j, before, synthetic);
    repairs := before;
    if synthetic != [] {
      repairs := repairs + [(j, synthetic)];
    }
  }

  method RecordRepairs(s: seq<Item>) returns (repairs: seq<(nat, seq<Item>)>)
    ensures Recorded(s, |s|, repairs)
  {
    repairs := [];
    var i := 0;
    RecordedStarts(s);
    while i < |s|
      invariant i <= |s| && Recorded(s, i, repairs)
    {
      if s[i].Assistant? && s[i].calls != [] {
        i, repairs := RecordAt(s, i, repairs);
      } else {
        RecordedOne(s, i, repairs);
        i := i + 1;
      }
    }
  }

  /** Deduplicate the run after the assistant at `i`, which ends at `end`. */
  method DedupAt(s: seq<Item>, i: nat) returns (out: seq<Item>, end: nat)
    requires i < |s| && s[i].Assistant? && s[i].calls != []
    ensures i < |out| <= |s| && Progress(DedupRun, out, i) == Progress(DedupRun, s, i)
    ensures |out| == |s| ==> out == s && i < end <= |s| && Progress(DedupRun, s, end) == Progress(DedupRun, s, i)
  {
    end := RunEnd(s, i + 1);
    ghost var run := s[i + 1..end];
    assert AllResults(run);
    var toRemove := MarkEarlierDuplicates(s, i + 1, end);
    out := RemoveMarked(s, i + 1, end, toRemove);
    KeepLastProps(run);
    Cut(s, i, end);
    RescanSame(s, i, end, out);
    if |out| == |s| {
      assert s == s[..i + 1] + run + s[end..];
      DedupIgnoresUnowned();
      ProgressRun(DedupRun, s, i, end);
    }
  }

  class History {
    var items: seq<Item>

    constructor (items: seq<Item>)
      ensures this.items == items
    {
      this.items := items;
    }

    /** Remove earlier duplicates in the run after each assistant that declares calls. */
    method DedupDuplicateToolResults() returns (totalRemoved: nat)
      modifies this
      ensures items == Dedup(old(items))
      ensures totalRemoved == |old(items)| - |items|
    {
      totalRemoved := 0;
      var i := 0;
      DedupIgnoresUnowned();
      ProgressEnds(DedupRun, items);
      while i < |items|
        invariant 0 <= i <= |items|
        invariant Progress(DedupRun, items, i) == Dedup(old(items))
        invariant |items| + totalRemoved == |old(items)|
        decreases |items| - i
      {
        if items[i].Assistant? && items[i].calls != [] {
          var out, end := DedupAt(items, i);
          if |out| < |items| {
            totalRemoved := totalRemoved + (|items| - |out|);
            items := out;
            continue;  // the window shifted: scan the same assistant again
          }
          i := end;
        } else {
          ProgressOne(DedupRun, items, i);
          i := i + 1;
        }
      }
      ProgressEnds(DedupRun, items);
    }

    /** Keep a result only while its id is declared by the assistant before its run. */
    method StripDisplacedToolResults() returns (stripped: seq<string>)
      modifies this
      ensures items == Strip(old(items))
      ensures stripped == StrippedIds({}, old(items))
    {
      var runIds: set<string> := {};
      var kept: seq<Item> := [];
      stripped := [];
      ghost var was := items;
      assert was[0..] == was;
      for i := 0 to |items|
        invariant items == was
        invariant kept + StripItems(runIds, was[i..]) == StripItems({}, was)
        invariant stripped + StrippedIds(runIds, was[i..]) == StrippedIds({}, was)
      {
        StripStep(was, i, runIds, kept, stripped);
        if items[i].Assistant? {
          runIds := CallIds(items[i].calls);
          kept := kept + [items[i]];
        } else if items[i].ToolResult? {
          if items[i].id in runIds {
            kept := kept + [items[i]];
          } else {
            stripped := stripped + [items[i].id];
          }
        } else {
          runIds := {};
          kept := kept + [items[i]];
        }
      }
      items := kept;
      StripItemsIsStrip([], was);
    }

    /** Record a synthetic block per assistant with unanswered calls, then splice the
        blocks in from the back so that recorded positions stay valid. */
    method RepairDanglingToolCalls() returns (total: nat)
      modifies this
      ensures items == Fill(old(items))
      ensures total == |items| - |old(items)|
    {
      var repairs := RecordRepairs(items);
      RecordedEnds(items, repairs);
      total := TotalSize(repairs);
      var k := |repairs|;
      assert repairs[..k] == repairs;
      while k > 0
        invariant 0 <= k <= |repairs|
        invariant |items| >= |old(items)|
        invariant Splice(items, repairs[..k]) == Fill(old(items))
      {
        k := k - 1;
        assert repairs[..k + 1][..k] == repairs[..k];
        assert repairs[k] in repairs;
        var at, block := repairs[k].0, repairs[k].1;
        items := items[..at] + block + items[at..];
      }
    }

    /** The three passes, and the report of what they changed. */
    method RepairHistory() returns (report: Report)
      modifies this
      ensures items == Repaired(old(items))
      ensures report == ReportOf(old(items))
    {
      var duplicates := DedupDuplicateToolResults();
      var stripped := StripDisplacedToolResults();
      var synthetic := RepairDanglingToolCalls();
      report := Report(duplicates, stripped, synthetic);
    }
  }
}
