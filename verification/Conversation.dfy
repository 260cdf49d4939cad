/** The conversation model and the pairing rule that providers enforce.

A conversation is cut into *runs*: the maximal blocks of tool results.  Each run
is judged against the tool calls of the item right before it, its owner.  All
passes of the history repair rewrite runs and leave every other item alone. */
module Conversation {
  import opened Options
  import opened Sequences

  datatype ToolCall = ToolCall(id: string, name: string, arguments: string)

  datatype Part = Text(text: string) | Image(url: string)

  datatype SyntheticReason = CompactionMeta | SystemReminder | ProjectInstructions | OtherReason

  datatype Item =
    | System(content: string)
    | User(parts: seq<Part>, synthetic: Option<SyntheticReason>)
    | Assistant(content: string, calls: seq<ToolCall>)
    | ToolResult(id: string, content: string, images: seq<string>)
    | BackendToolCall(summary: string)
    | Reasoning(text: string)

  type RunMap = (seq<ToolCall>, seq<Item>) -> seq<Item>
  type RunTest = (seq<ToolCall>, seq<Item>) -> bool

  function CallsOf(x: Item): seq<ToolCall> {
    if x.Assistant? then x.calls else []
  }

  function CallIds(calls: seq<ToolCall>): set<string> {
    if calls == [] then {} else {calls[0].id} + CallIds(calls[1..])
  }

  predicate AllResults(run: seq<Item>) {
    forall k | 0 <= k < |run| :: run[k].ToolResult?
  }

  function ResultIds(run: seq<Item>): set<string> {
    if run == [] then {} else (if run[0].ToolResult? then {run[0].id} else {}) + ResultIds(run[1..])
  }

  /** No two results of the run carry the same id. */
  predicate DistinctIds(run: seq<Item>) {
    run == [] || (!(run[0].ToolResult? && run[0].id in ResultIds(run[1..])) && DistinctIds(run[1..]))
  }

  /** Number of tool results at the front of `s`. */
  function RunLen(s: seq<Item>): (n: nat)
    ensures n <= |s|
    ensures AllResults(s[..n])
    ensures n < |s| ==> !s[n].ToolResult?
  {
    if s == [] || !s[0].ToolResult? then 0 else 1 + RunLen(s[1..])
  }

  /** Apply `f` to every run of `s`; `calls` are the calls of the item before `s`. */
  function MapRuns(f: RunMap, calls: seq<ToolCall>, s: seq<Item>): seq<Item>
    decreases |s|
  {
    var n := RunLen(s);
    f(calls, s[..n]) + if n == |s| then [] else [s[n]] + MapRuns(f, CallsOf(s[n]), s[n + 1..])
  }

  predicate AllRuns(p: RunTest, calls: seq<ToolCall>, s: seq<Item>)
    decreases |s|
  {
    var n := RunLen(s);
    p(calls, s[..n]) && (n == |s| || AllRuns(p, CallsOf(s[n]), s[n + 1..]))
  }

  /** Everything that is not a tool result, in order. */
  function NonResults(s: seq<Item>): seq<Item> {
    if s == [] then []
    else (if s[0].ToolResult? then [] else [s[0]]) + NonResults(s[1..])
  }

  /** The ids of the results, by position. */
  function IdsIn(s: seq<Item>): (r: seq<string>)
    ensures |r| == |s| && forall k | 0 <= k < |r| :: r[k] == if s[k].ToolResult? then s[k].id else ""
  {
    seq(|s|, k requires 0 <= k < |s| => if s[k].ToolResult? then s[k].id else "")
  }

  // ---------- The provider rule ----------

  predicate RunPaired(calls: seq<ToolCall>, run: seq<Item>) {
    ResultIds(run) <= CallIds(calls)
  }

  predicate RunAnswered(calls: seq<ToolCall>, run: seq<Item>) {
    CallIds(calls) <= ResultIds(run)
  }

  predicate RunStrict(calls: seq<ToolCall>, run: seq<Item>) {
    RunPaired(calls, run) && RunAnswered(calls, run) && DistinctIds(run)
  }

  /** Every result sits in the run of the assistant that declared its id. */
  predicate Paired(s: seq<Item>) { AllRuns(RunPaired, [], s) }

  /** Every declared call has a result in the run of its assistant. */
  predicate Answered(s: seq<Item>) { AllRuns(RunAnswered, [], s) }

  /** Paired, answered, and no id answered twice in one run. */
  predicate Strict(s: seq<Item>) { AllRuns(RunStrict, [], s) }

  // ---------- The same rule, by positions ----------

  /** Position of the closest item before `k` that is not a tool result, or -1. */
  function OwnerIndex(s: seq<Item>, k: nat): (i: int)
    requires k <= |s|
    ensures -1 <= i < k
    ensures i >= 0 ==> !s[i].ToolResult?
  {
    if k == 0 then -1 else if s[k - 1].ToolResult? then OwnerIndex(s, k - 1) else k - 1
  }

  /** The calls of the item at `i`; position -1 stands for the item before `s`. */
  function CallsAt(calls: seq<ToolCall>, s: seq<Item>, i: int): seq<ToolCall>
    requires -1 <= i < |s|
  {
    if i == -1 then calls else CallsOf(s[i])
  }

  /** The result at `k` carries `id` and belongs to the run right after position `i`. */
  predicate Answers(s: seq<Item>, i: int, id: string, k: int) {
    0 <= k < |s| && s[k].ToolResult? && s[k].id == id && OwnerIndex(s, k) == i
  }

  ghost predicate EachResultDeclared(calls: seq<ToolCall>, s: seq<Item>) {
    forall i, id, k :: Answers(s, i, id, k) ==> id in CallIds(CallsAt(calls, s, i))
  }

  ghost predicate EachCallAnswered(calls: seq<ToolCall>, s: seq<Item>) {
    forall i, id | -1 <= i < |s| && id in CallIds(CallsAt(calls, s, i)) :: exists k :: Answers(s, i, id, k)
  }

  ghost predicate NoCallAnsweredTwice(s: seq<Item>) {
    forall i, id, j, k :: Answers(s, i, id, j) && Answers(s, i, id, k) ==> j == k
  }

  lemma {:induction false} OwnerIndexShift(s: seq<Item>, m: nat, k: nat)
    requires m < k <= |s| && !s[m].ToolResult?
    ensures OwnerIndex(s, k) == m + 1 + OwnerIndex(s[m + 1..], k - m - 1)
    decreases k
  {
    if k > m + 1 && s[k - 1].ToolResult? {
      assert s[k - 1] == s[m + 1..][k - m - 2];
      OwnerIndexShift(s, m, k - 1);
    } else if k > m + 1 {
      assert s[k - 1] == s[m + 1..][k - m - 2];
    }
  }

  // ---------- Laws of runs ----------

  /** A run followed by an item that is not a result is cut off exactly there. */
  lemma {:induction false} RunLenOf(run: seq<Item>, rest: seq<Item>)
    requires AllResults(run)
    requires rest == [] || !rest[0].ToolResult?
    ensures RunLen(run + rest) == |run|
    ensures (run + rest)[..|run|] == run && (run + rest)[|run|..] == rest
  {
    if run != [] {
      assert (run + rest)[1..] == run[1..] + rest;
      RunLenOf(run[1..], rest);
    } else {
      assert run + rest == rest;
    }
  }

  ghost predicate KeepsResults(f: RunMap) {
    forall c, r :: AllResults(r) ==> AllResults(f(c, r))
  }

  /** What `f` makes of the part from the item behind a run on. */
  function Behind(f: RunMap, rest: seq<Item>): seq<Item> {
    if rest == [] then [] else [rest[0]] + MapRuns(f, CallsOf(rest[0]), rest[1..])
  }

  lemma {:induction false} MapRunsStep(f: RunMap, calls: seq<ToolCall>, run: seq<Item>, rest: seq<Item>)
    requires AllResults(run)
    requires rest == [] || !rest[0].ToolResult?
    ensures MapRuns(f, calls, run + rest) ==
            f(calls, run) + Behind(f, rest)
  {
    RunLenOf(run, rest);
    if rest != [] {
      assert (run + rest)[|run| + 1..] == rest[1..];
    }
  }

  /** A rewrite that treats the first result of a run on its own. */
  lemma {:induction false} MapRunsCons(f: RunMap, calls: seq<ToolCall>, head: seq<Item>, x: Item, run: seq<Item>, rest: seq<Item>)
    requires x.ToolResult? && AllResults(run) && (rest == [] || !rest[0].ToolResult?)
    requires f(calls, [x] + run) == head + f(calls, run)
    ensures MapRuns(f, calls, ([x] + run) + rest) == head + MapRuns(f, calls, run + rest)
  {
    MapRunsStep(f, calls, run, rest);
    MapRunsStep(f, calls, [x] + run, rest);
    Associate(head, f(calls, run), Behind(f, rest));
  }

  lemma {:induction false} AllRunsStep(p: RunTest, calls: seq<ToolCall>, run: seq<Item>, rest: seq<Item>)
    requires AllResults(run)
    requires rest == [] || !rest[0].ToolResult?
    ensures AllRuns(p, calls, run + rest) <==>
            p(calls, run) && (rest == [] || AllRuns(p, CallsOf(rest[0]), rest[1..]))
  {
    RunLenOf(run, rest);
    if rest != [] {
      assert (run + rest)[|run| + 1..] == rest[1..];
    }
  }

  /** An item that is no result ends the run before it. */
  lemma AllRunsFront(p: RunTest, calls: seq<ToolCall>, x: Item, rest: seq<Item>)
    requires !x.ToolResult?
    ensures AllRuns(p, calls, [x] + rest) <==> p(calls, []) && AllRuns(p, CallsOf(x), rest)
  {
    AllRunsStep(p, calls, [], [x] + rest);
    assert [] + ([x] + rest) == [x] + rest && ([x] + rest)[1..] == rest;
  }

  function Compose(f: RunMap, g: RunMap): RunMap {
    (c, r) => g(c, f(c, r))
  }

  /** Rewriting runs twice is rewriting them once with the composition. */
  lemma {:induction false} MapRunsFuse(f: RunMap, g: RunMap, calls: seq<ToolCall>, s: seq<Item>)
    requires KeepsResults(f)
    ensures MapRuns(g, calls, MapRuns(f, calls, s)) == MapRuns(Compose(f, g), calls, s)
    decreases |s|
  {
    var n := RunLen(s);
    var run := f(calls, s[..n]);
    if n == |s| {
      MapRunsStep(g, calls, run, []);
      assert run + [] == run;
    } else {
      MapRunsItem(g, calls, run, s[n], MapRuns(f, CallsOf(s[n]), s[n + 1..]));
      MapRunsFuse(f, g, CallsOf(s[n]), s[n + 1..]);
    }
  }

  /** A relation between the runs of an owner before and after a rewrite. */
  type RunPair = (seq<ToolCall>, seq<Item>, seq<Item>) -> bool

  /** Outside runs both conversations are the same, and corresponding runs are related. */
  predicate SideBySide(rel: RunPair, calls: seq<ToolCall>, s: seq<Item>, t: seq<Item>)
    decreases |s|
  {
    var n, m := RunLen(s), RunLen(t);
    && rel(calls, s[..n], t[..m])
    && if n == |s| then m == |t|
       else m < |t| && t[m] == s[n] && SideBySide(rel, CallsOf(s[n]), s[n + 1..], t[m + 1..])
  }

  lemma {:induction false} MapRunsSideBySide(rel: RunPair, f: RunMap, calls: seq<ToolCall>, s: seq<Item>)
    requires KeepsResults(f)
    requires forall c, r :: AllResults(r) ==> rel(c, r, f(c, r))
    ensures SideBySide(rel, calls, s, MapRuns(f, calls, s))
    decreases |s|
  {
    hide SideBySide, RunLen;
    var n := RunLen(s);
    var run := f(calls, s[..n]);
    if n == |s| {
      SideBySideLast(rel, calls, s, run);
    } else {
      MapRunsSideBySide(rel, f, CallsOf(s[n]), s[n + 1..]);
      SideBySideRun(rel, calls, s, run, MapRuns(f, CallsOf(s[n]), s[n + 1..]));
    }
  }

  lemma SideBySideLast(rel: RunPair, calls: seq<ToolCall>, s: seq<Item>, run: seq<Item>)
    requires AllResults(run) && RunLen(s) == |s| && rel(calls, s[..|s|], run)
    ensures SideBySide(rel, calls, s, run + [])
  {
    RunLenOf(run, []);
    assert run[..|run|] == run && run + [] == run;
  }

  lemma {:induction false} SideBySideRun(rel: RunPair, calls: seq<ToolCall>, s: seq<Item>, run: seq<Item>, rest: seq<Item>)
    requires AllResults(run) && RunLen(s) < |s|
    requires var n := RunLen(s); rel(calls, s[..n], run) && SideBySide(rel, CallsOf(s[n]), s[n + 1..], rest)
    ensures SideBySide(rel, calls, s, run + ([s[RunLen(s)]] + rest))
  {
    var more := [s[RunLen(s)]] + rest;
    RunLenOf(run, more);
    AppendDrop(run, more, 1);
    assert more[1..] == rest;
  }

  lemma {:induction false} MapRunsItem(f: RunMap, calls: seq<ToolCall>, run: seq<Item>, x: Item, rest: seq<Item>)
    requires AllResults(run) && !x.ToolResult?
    ensures MapRuns(f, calls, run + ([x] + rest)) == f(calls, run) + ([x] + MapRuns(f, CallsOf(x), rest))
  {
    MapRunsStep(f, calls, run, [x] + rest);
    assert ([x] + rest)[1..] == rest;
  }

  /** What a rewrite establishes in every run holds of the rewritten conversation. */
  lemma {:induction false} AllRunsOfMap(p: RunTest, q: RunTest, f: RunMap, calls: seq<ToolCall>, s: seq<Item>)
    requires KeepsResults(f)
    requires forall c, r :: AllResults(r) ==> (p(c, r) <==> q(c, f(c, r)))
    ensures AllRuns(q, calls, MapRuns(f, calls, s)) <==> AllRuns(p, calls, s)
    decreases |s|
  {
    var n := RunLen(s);
    var run := f(calls, s[..n]);
    if n == |s| {
      AllRunsStep(q, calls, run, []);
    } else {
      var rest := [s[n]] + MapRuns(f, CallsOf(s[n]), s[n + 1..]);
      AllRunsStep(q, calls, run, rest);
      AllRunsOfMap(p, q, f, CallsOf(s[n]), s[n + 1..]);
    }
  }

  lemma {:induction false} AllRunsWeaken(p: RunTest, q: RunTest, calls: seq<ToolCall>, s: seq<Item>)
    requires forall c, r :: AllResults(r) && p(c, r) ==> q(c, r)
    requires AllRuns(p, calls, s)
    ensures AllRuns(q, calls, s)
    decreases |s|
  {
    var n := RunLen(s);
    if n < |s| {
      AllRunsWeaken(p, q, CallsOf(s[n]), s[n + 1..]);
    }
  }

  /** A rewrite that is the identity on every run of `s` leaves `s` alone. */
  lemma {:induction false} MapRunsIdentity(p: RunTest, f: RunMap, calls: seq<ToolCall>, s: seq<Item>)
    requires forall c, r :: AllResults(r) && p(c, r) ==> f(c, r) == r
    requires AllRuns(p, calls, s)
    ensures MapRuns(f, calls, s) == s
    decreases |s|
  {
    hide RunLen, AllResults;
    var n := RunLen(s);
    if n < |s| {
      MapRunsIdentity(p, f, CallsOf(s[n]), s[n + 1..]);
      assert s == s[..n] + ([s[n]] + s[n + 1..]);
    } else {
      assert s[..n] == s;
    }
  }

  /** A rewrite that shortens exactly the runs violating `p` keeps the length of
      `s` exactly when every run satisfies `p`. */
  lemma {:induction false} MapRunsShrinks(p: RunTest, f: RunMap, calls: seq<ToolCall>, s: seq<Item>)
    requires forall c, r :: AllResults(r) ==> |f(c, r)| <= |r| && (|f(c, r)| == |r| <==> p(c, r))
    ensures |MapRuns(f, calls, s)| <= |s|
    ensures |MapRuns(f, calls, s)| == |s| <==> AllRuns(p, calls, s)
    decreases |s|
  {
    hide RunLen, AllResults;
    var n := RunLen(s);
    if n < |s| {
      MapRunsShrinks(p, f, CallsOf(s[n]), s[n + 1..]);
    }
  }

  lemma {:induction false} MapRunsGrows(p: RunTest, f: RunMap, calls: seq<ToolCall>, s: seq<Item>)
    requires forall c, r :: AllResults(r) ==> |f(c, r)| >= |r| && (|f(c, r)| == |r| <==> p(c, r))
    ensures |MapRuns(f, calls, s)| >= |s|
    ensures |MapRuns(f, calls, s)| == |s| <==> AllRuns(p, calls, s)
    decreases |s|
  {
    hide RunLen, AllResults;
    var n := RunLen(s);
    if n < |s| {
      MapRunsGrows(p, f, CallsOf(s[n]), s[n + 1..]);
    }
  }

  lemma {:induction false} NonResultsConcat(a: seq<Item>, b: seq<Item>)
    ensures NonResults(a + b) == NonResults(a) + NonResults(b)
  {
    if a == [] {
      assert a + b == b;
    } else {
      assert (a + b)[1..] == a[1..] + b;
      NonResultsConcat(a[1..], b);
    }
  }

  lemma {:induction false} NonResultsOfRun(run: seq<Item>)
    requires AllResults(run)
    ensures NonResults(run) == []
  {
    if run != [] {
      NonResultsOfRun(run[1..]);
    }
  }

  /** Rewriting runs never touches, drops or reorders any other item. */
  lemma {:induction false} MapRunsKeepsNonResults(f: RunMap, calls: seq<ToolCall>, s: seq<Item>)
    requires KeepsResults(f)
    ensures NonResults(MapRuns(f, calls, s)) == NonResults(s)
    decreases |s|
  {
    var n := RunLen(s);
    NonResultsOfRun(s[..n]);
    NonResultsOfRun(f(calls, s[..n]));
    if n < |s| {
      var tail := MapRuns(f, CallsOf(s[n]), s[n + 1..]);
      MapRunsKeepsNonResults(f, CallsOf(s[n]), s[n + 1..]);
      NonResultsConcat(f(calls, s[..n]), [s[n]] + tail);
      assert s == s[..n] + ([s[n]] + s[n + 1..]);
      NonResultsConcat(s[..n], [s[n]] + s[n + 1..]);
      assert ([s[n]] + tail)[1..] == tail && ([s[n]] + s[n + 1..])[1..] == s[n + 1..];
    } else {
      assert s[..n] == s;
      assert f(calls, s[..n]) + [] == f(calls, s[..n]);
    }
  }

  // ---------- Runs and positions agree ----------

  lemma {:induction false} ResultIdsByPosition(run: seq<Item>, id: string)
    ensures id in ResultIds(run) <==> exists k | 0 <= k < |run| :: run[k].ToolResult? && run[k].id == id
  {
    if run != [] {
      ResultIdsByPosition(run[1..], id);
      if id in ResultIds(run[1..]) {
        var k :| 0 <= k < |run[1..]| && run[1..][k].ToolResult? && run[1..][k].id == id;
        assert run[k + 1].id == id;
      }
      if k :| 0 < k < |run| && run[k].ToolResult? && run[k].id == id {
        assert run[1..][k - 1].id == id;
      }
    }
  }

  lemma {:induction false} DistinctByPosition(run: seq<Item>)
    requires AllResults(run)
    ensures DistinctIds(run) <==> forall j, k | 0 <= j < k < |run| :: run[j].id != run[k].id
  {
    if run != [] {
      var t := run[1..];
      DistinctByPosition(t);
      ResultIdsByPosition(t, run[0].id);
      if DistinctIds(run) {
        forall j, k | 0 <= j < k < |run| ensures run[j].id != run[k].id {
          assert run[k] == t[k - 1];
          if j > 0 { assert run[j] == t[j - 1]; }
        }
      } else if run[0].id in ResultIds(t) {
        var k :| 0 <= k < |t| && t[k].id == run[0].id;
        assert run[k + 1].id == run[0].id;
      } else {
        var j, k :| 0 <= j < k < |t| && t[j].id == t[k].id;
        assert run[j + 1].id == run[k + 1].id;
      }
    }
  }

  /** `s` starts with exactly `n` results. */
  predicate CutAt(s: seq<Item>, n: nat) {
    n <= |s| && (n < |s| ==> !s[n].ToolResult?) && forall k | 0 <= k < n :: s[k].ToolResult?
  }

  lemma RunLenCuts(s: seq<Item>)
    ensures CutAt(s, RunLen(s))
  {
    assert forall k | 0 <= k < RunLen(s) :: s[k] == s[..RunLen(s)][k];
  }

  lemma {:induction false} OwnerIndexInRun(s: seq<Item>, n: nat, k: nat)
    requires CutAt(s, n) && k <= n
    ensures OwnerIndex(s, k) == -1
    decreases k
  {
    if k > 0 {
      OwnerIndexInRun(s, n, k - 1);
    }
  }

  predicate AnswersInRun(s: seq<Item>, n: nat, i: int, id: string, k: int) {
    i == -1 && 0 <= k < n <= |s| && s[k].ToolResult? && s[k].id == id
  }

  /** Where the answers to position `i` are: in the leading run, or in the rest. */
  lemma AnswersInLeadingRun(s: seq<Item>, n: nat, i: int, id: string, k: int)
    requires CutAt(s, n) && k <= n
    ensures Answers(s, i, id, k) <==> AnswersInRun(s, n, i, id, k)
  {
    if 0 <= k < n {
      OwnerIndexInRun(s, n, k);
    }
  }

  /** The answers behind the leading run are the answers of the rest, shifted by `d`. */
  lemma AnswersInRest(s: seq<Item>, d: nat, t: seq<Item>, i: int, id: string, k: int)
    requires 0 < d <= |s| && !s[d - 1].ToolResult? && t == s[d..] && k >= d
    ensures Answers(s, i, id, k) <==> i >= d - 1 && Answers(t, i - d, id, k - d)
  {
    if k < |s| {
      OwnerIndexShift(s, d - 1, k);
      assert s[k] == t[k - d];
    }
  }

  /** The positional rule, for the leading run only. */
  ghost predicate LeadingRunRule(calls: seq<ToolCall>, s: seq<Item>) {
    && (forall id, k :: Answers(s, -1, id, k) ==> id in CallIds(calls))
    && (forall id | id in CallIds(calls) :: exists k :: Answers(s, -1, id, k))
    && (forall id, j, k :: Answers(s, -1, id, j) && Answers(s, -1, id, k) ==> j == k)
  }

  lemma {:induction false} LeadingRunByPosition(calls: seq<ToolCall>, s: seq<Item>)
    ensures RunStrict(calls, s[..RunLen(s)]) <==> LeadingRunRule(calls, s)
  {
    var n := RunLen(s);
    var run := s[..n];
    RunLenCuts(s);
    forall id, k ensures Answers(s, -1, id, k) <==> 0 <= k < n && run[k].id == id {
      if k <= n { AnswersInLeadingRun(s, n, -1, id, k); }
      else if k < |s| { OwnerIndexShift(s, n, k); }
    }
    forall id ensures id in ResultIds(run) <==> exists k :: Answers(s, -1, id, k) {
      ResultIdsByPosition(run, id);
      if id in ResultIds(run) {
        var k :| 0 <= k < |run| && run[k].ToolResult? && run[k].id == id;
        assert Answers(s, -1, id, k);
      }
    }
    DistinctByPosition(run);
    if LeadingRunRule(calls, s) {
      forall j, k | 0 <= j < k < |run| ensures run[j].id != run[k].id {
        assert Answers(s, -1, run[j].id, j) && Answers(s, -1, run[k].id, k);
      }
    }
  }

  lemma RestDeclared(calls: seq<ToolCall>, s: seq<Item>, n: nat)
    requires CutAt(s, n) && n < |s|
    requires EachResultDeclared(calls, s)
    ensures forall id, k :: Answers(s, -1, id, k) ==> id in CallIds(calls)
    ensures EachResultDeclared(CallsOf(s[n]), s[n + 1..])
  {
    var t := s[n + 1..];
    forall id, k | Answers(s, -1, id, k) ensures id in CallIds(calls) {
      assert CallsAt(calls, s, -1) == calls;
    }
    forall i, id, k | Answers(t, i, id, k) ensures id in CallIds(CallsAt(CallsOf(s[n]), t, i)) {
      AnswersInRest(s, n + 1, t, i + n + 1, id, k + n + 1);
      assert CallsAt(CallsOf(s[n]), t, i) == CallsAt(calls, s, i + n + 1);
    }
  }

  lemma DeclaredFromRest(calls: seq<ToolCall>, s: seq<Item>, n: nat)
    requires CutAt(s, n) && n < |s|
    requires forall id, k :: Answers(s, -1, id, k) ==> id in CallIds(calls)
    requires EachResultDeclared(CallsOf(s[n]), s[n + 1..])
    ensures EachResultDeclared(calls, s)
  {
    var t := s[n + 1..];
    forall i, id, k | Answers(s, i, id, k) ensures id in CallIds(CallsAt(calls, s, i)) {
      AnswerIsSomewhere(s, n, t, i, id, k);
    }
  }

  lemma {:induction false} RestAnswered(calls: seq<ToolCall>, s: seq<Item>, n: nat)
    requires CutAt(s, n) && n < |s|
    requires EachCallAnswered(calls, s)
    ensures forall id | id in CallIds(calls) :: exists k :: Answers(s, -1, id, k)
    ensures EachCallAnswered(CallsOf(s[n]), s[n + 1..])
  {
    var t := s[n + 1..];
    forall id | id in CallIds(calls) ensures exists k :: Answers(s, -1, id, k) {
      assert id in CallIds(CallsAt(calls, s, -1));
    }
    forall i, id | -1 <= i < |t| && id in CallIds(CallsAt(CallsOf(s[n]), t, i))
      ensures exists k :: Answers(t, i, id, k)
    {
      assert id in CallIds(CallsAt(calls, s, i + n + 1));
      var k :| Answers(s, i + n + 1, id, k);
      if k <= n { AnswersInLeadingRun(s, n, i + n + 1, id, k); }
      AnswersInRest(s, n + 1, t, i + n + 1, id, k);
    }
  }

  lemma AnsweredInRest(s: seq<Item>, d: nat, t: seq<Item>, i: int, id: string, i': int)
    requires 0 < d <= |s| && !s[d - 1].ToolResult? && t == s[d..] && -1 <= i' && i == i' + d
    requires exists k :: Answers(t, i', id, k)
    ensures exists k :: Answers(s, i, id, k)
  {
    var k :| Answers(t, i', id, k);
    AnswersInRest(s, d, t, i, id, k + d);
    assert Answers(s, i, id, k + d);
  }

  lemma AnsweredFromRest(calls: seq<ToolCall>, s: seq<Item>, n: nat)
    requires CutAt(s, n) && n < |s|
    requires forall id | id in CallIds(calls) :: exists k :: Answers(s, -1, id, k)
    requires EachCallAnswered(CallsOf(s[n]), s[n + 1..])
    ensures EachCallAnswered(calls, s)
  {
    var own, t := CallsOf(s[n]), s[n + 1..];
    forall i, id | -1 <= i < |s| && id in CallIds(CallsAt(calls, s, i))
      ensures exists k :: Answers(s, i, id, k)
    {
      if i >= n {
        assert CallsAt(own, t, i - n - 1) == CallsAt(calls, s, i);
        AnsweredInRest(s, n + 1, t, i, id, i - n - 1);
      }
    }
  }

  lemma RestOnce(s: seq<Item>, n: nat)
    requires CutAt(s, n) && n < |s|
    requires NoCallAnsweredTwice(s)
    ensures forall id, j, k :: Answers(s, -1, id, j) && Answers(s, -1, id, k) ==> j == k
    ensures NoCallAnsweredTwice(s[n + 1..])
  {
    var t := s[n + 1..];
    forall i, id, j, k | Answers(t, i, id, j) && Answers(t, i, id, k) ensures j == k {
      AnswersInRest(s, n + 1, t, i + n + 1, id, j + n + 1);
      AnswersInRest(s, n + 1, t, i + n + 1, id, k + n + 1);
    }
  }

  lemma AnswerIsSomewhere(s: seq<Item>, n: nat, t: seq<Item>, i: int, id: string, k: int)
    requires CutAt(s, n) && n < |s| && t == s[n + 1..]
    requires Answers(s, i, id, k)
    ensures i == -1 || (i >= n && Answers(t, i - (n + 1), id, k - (n + 1)))
  {
    if k <= n {
      AnswersInLeadingRun(s, n, i, id, k);
    } else {
      AnswersInRest(s, n + 1, t, i, id, k);
    }
  }

  lemma OnceFromRest(s: seq<Item>, n: nat)
    requires CutAt(s, n) && n < |s|
    requires forall id, j, k :: Answers(s, -1, id, j) && Answers(s, -1, id, k) ==> j == k
    requires NoCallAnsweredTwice(s[n + 1..])
    ensures NoCallAnsweredTwice(s)
  {
    var t := s[n + 1..];
    forall i, id, j, k | Answers(s, i, id, j) && Answers(s, i, id, k) ensures j == k {
      AnswerIsSomewhere(s, n, t, i, id, j);
      AnswerIsSomewhere(s, n, t, i, id, k);
    }
  }

  lemma AloneByPosition(calls: seq<ToolCall>, s: seq<Item>)
    requires CutAt(s, |s|)
    ensures EachResultDeclared(calls, s) && EachCallAnswered(calls, s) && NoCallAnsweredTwice(s) <==>
            LeadingRunRule(calls, s)
  {
    var n := |s|;
    forall i, id, k | Answers(s, i, id, k) ensures i == -1 {
      AnswersInLeadingRun(s, n, i, id, k);
    }
    forall i | 0 <= i < |s| ensures CallIds(CallsAt(calls, s, i)) == {} {
    }
    if EachCallAnswered(calls, s) {
      forall id | id in CallIds(calls) ensures exists k :: Answers(s, -1, id, k) {
        assert id in CallIds(CallsAt(calls, s, -1));
      }
    }
  }

  /** The run-by-run rule is the positional rule: each result has an owner that
      declares it, each declared call has a result in its run, and only one. */
  lemma {:induction false} StrictByPosition(calls: seq<ToolCall>, s: seq<Item>)
    ensures AllRuns(RunStrict, calls, s) <==>
            EachResultDeclared(calls, s) && EachCallAnswered(calls, s) && NoCallAnsweredTwice(s)
    decreases |s|
  {
    var n := RunLen(s);
    RunLenCuts(s);
    LeadingRunByPosition(calls, s);
    if n < |s| {
      var own, t := CallsOf(s[n]), s[n + 1..];
      StrictByPosition(own, t);
      if EachResultDeclared(calls, s) && EachCallAnswered(calls, s) && NoCallAnsweredTwice(s) {
        RestDeclared(calls, s, n);
        RestAnswered(calls, s, n);
        RestOnce(s, n);
      }
      if LeadingRunRule(calls, s) && EachResultDeclared(own, t) && EachCallAnswered(own, t) && NoCallAnsweredTwice(t) {
        DeclaredFromRest(calls, s, n);
        AnsweredFromRest(calls, s, n);
        OnceFromRest(s, n);
      }
    } else {
      AloneByPosition(calls, s);
      assert s[..n] == s;
    }
  }
}
