/** `repair_history`: dedup, strip, backfill.  What each of the three passes does to every
run of a history, and what the repaired history satisfies. */
module RepairHistory {
  import opened Options
  import opened Conversation
  import opened Sequences

  // ---------- What each pass does to one run ----------

  /** Keep the last result of every id. */
  function KeepLast(run: seq<Item>): seq<Item> {
    if run == [] then []
    else if run[0].ToolResult? && run[0].id in ResultIds(run[1..]) then KeepLast(run[1..])
    else [run[0]] + KeepLast(run[1..])
  }

  /** Only assistants that declare calls have their run deduplicated. */
  function DedupRun(calls: seq<ToolCall>, run: seq<Item>): seq<Item> {
    if calls == [] then run else KeepLast(run)
  }

  function KeepOwned(ids: set<string>, run: seq<Item>): seq<Item> {
    if run == [] then []
    else (if run[0].ToolResult? && run[0].id !in ids then [] else [run[0]]) + KeepOwned(ids, run[1..])
  }

  function StripRun(calls: seq<ToolCall>, run: seq<Item>): seq<Item> {
    KeepOwned(CallIds(calls), run)
  }

  function SyntheticResult(call: ToolCall): Item {
    ToolResult(call.id,
               "Tool execution was halted by the harness (history_repair); the tool `" + call.name + "` was not executed.",
               [])
  }

  /** One synthetic result per unanswered call, in call order. */
  function Backfill(calls: seq<ToolCall>, answered: set<string>): (r: seq<Item>)
    ensures AllResults(r) && |r| <= |calls|
  {
    if calls == [] then []
    else (if calls[0].id in answered then [] else [SyntheticResult(calls[0])]) + Backfill(calls[1..], answered)
  }

  function FillRun(calls: seq<ToolCall>, run: seq<Item>): seq<Item> {
    run + Backfill(calls, ResultIds(run))
  }

  function Dedup(s: seq<Item>): seq<Item> { MapRuns(DedupRun, [], s) }
  function Strip(s: seq<Item>): seq<Item> { MapRuns(StripRun, [], s) }
  function Fill(s: seq<Item>): seq<Item> { MapRuns(FillRun, [], s) }

  function Repaired(s: seq<Item>): seq<Item> { Fill(Strip(Dedup(s))) }

  function RepairRun(calls: seq<ToolCall>, run: seq<Item>): seq<Item> {
    FillRun(calls, StripRun(calls, DedupRun(calls, run)))
  }

  /** The ids of the results `Strip` removes, in order. */
  function StrippedIds(ids: set<string>, s: seq<Item>): seq<string>
    decreases |s|
  {
    if s == [] then []
    else if s[0].ToolResult? then (if s[0].id in ids then [] else [s[0].id]) + StrippedIds(ids, s[1..])
    else StrippedIds(CallIds(CallsOf(s[0])), s[1..])
  }

  datatype Report = Report(duplicatesRemoved: nat, strippedIds: seq<string>, syntheticInserted: nat)
  {
    predicate Changed() {
      duplicatesRemoved > 0 || strippedIds != [] || syntheticInserted > 0
    }
  }

  /** The report as the length differences the passes leave behind. */
  function ReportOf(s: seq<Item>): Report {
    RepairedLengths(s);
    Report(|s| - |Dedup(s)|, StrippedIds({}, Dedup(s)), |Repaired(s)| - |Strip(Dedup(s))|)
  }

  // ---------- Laws of the run rewrites ----------

  lemma {:induction false} KeepLastProps(run: seq<Item>)
    requires AllResults(run)
    ensures AllResults(KeepLast(run)) && DistinctIds(KeepLast(run))
    ensures ResultIds(KeepLast(run)) == ResultIds(run)
    ensures |KeepLast(run)| <= |run|
    ensures |KeepLast(run)| == |run| <==> DistinctIds(run)
    ensures DistinctIds(run) ==> KeepLast(run) == run
  {
    if run != [] {
      KeepLastProps(run[1..]);
    }
  }

  lemma {:induction false} KeepOwnedProps(ids: set<string>, run: seq<Item>)
    requires AllResults(run)
    ensures AllResults(KeepOwned(ids, run))
    ensures ResultIds(KeepOwned(ids, run)) == ResultIds(run) * ids
    ensures |KeepOwned(ids, run)| <= |run|
    ensures |KeepOwned(ids, run)| == |run| <==> ResultIds(run) <= ids
    ensures ResultIds(run) <= ids ==> KeepOwned(ids, run) == run
    ensures DistinctIds(run) ==> DistinctIds(KeepOwned(ids, run))
  {
    if run != [] {
      var rest := KeepOwned(ids, run[1..]);
      KeepOwnedProps(ids, run[1..]);
      if run[0].id in ids {
        assert KeepOwned(ids, run) == [run[0]] + rest && ([run[0]] + rest)[1..] == rest;
      } else {
        assert KeepOwned(ids, run) == rest;
        assert run[0].id in ResultIds(run);
      }
    }
  }

  /** The calls of one assistant repeat no id outside `answered`. */
  predicate NoRepeatOutside(calls: seq<ToolCall>, answered: set<string>) {
    calls == [] ||
    ((calls[0].id in CallIds(calls[1..]) ==> calls[0].id in answered) && NoRepeatOutside(calls[1..], answered))
  }

  lemma {:induction false} BackfillProps(calls: seq<ToolCall>, answered: set<string>)
    ensures ResultIds(Backfill(calls, answered)) == CallIds(calls) - answered
    ensures Backfill(calls, answered) == [] <==> CallIds(calls) <= answered
    ensures DistinctIds(Backfill(calls, answered)) <==> NoRepeatOutside(calls, answered)
  {
    if calls != [] {
      var rest := Backfill(calls[1..], answered);
      BackfillProps(calls[1..], answered);
      if calls[0].id in answered {
        assert Backfill(calls, answered) == rest;
      } else {
        var x := SyntheticResult(calls[0]);
        assert Backfill(calls, answered) == [x] + rest && ([x] + rest)[1..] == rest;
      }
    }
  }

  lemma {:induction false} IdsOfConcat(a: seq<Item>, b: seq<Item>)
    ensures ResultIds(a + b) == ResultIds(a) + ResultIds(b)
    ensures DistinctIds(a + b) <==> DistinctIds(a) && DistinctIds(b) && ResultIds(a) !! ResultIds(b)
  {
    if a == [] {
      assert a + b == b;
    } else {
      assert (a + b)[1..] == a[1..] + b;
      IdsOfConcat(a[1..], b);
    }
  }

  lemma {:induction false} FillRunProps(calls: seq<ToolCall>, run: seq<Item>)
    requires AllResults(run)
    ensures AllResults(FillRun(calls, run))
    ensures ResultIds(FillRun(calls, run)) == ResultIds(run) + CallIds(calls)
    ensures |FillRun(calls, run)| >= |run|
    ensures |FillRun(calls, run)| == |run| <==> RunAnswered(calls, run)
    ensures RunAnswered(calls, run) ==> FillRun(calls, run) == run
    ensures DistinctIds(run) ==> (DistinctIds(FillRun(calls, run)) <==> NoRepeatOutside(calls, ResultIds(run)))
  {
    hide Backfill, NoRepeatOutside, DistinctIds, CallIds, ResultIds;
    BackfillProps(calls, ResultIds(run));
    IdsOfConcat(run, Backfill(calls, ResultIds(run)));
  }

  /** Only the ids of the calls themselves matter to the condition. */
  lemma {:induction false} NoRepeatOutsideOwn(calls: seq<ToolCall>, a: set<string>, b: set<string>)
    requires a * CallIds(calls) == b * CallIds(calls)
    ensures NoRepeatOutside(calls, a) <==> NoRepeatOutside(calls, b)
  {
    if calls != [] {
      assert CallIds(calls[1..]) <= CallIds(calls);
      assert a * CallIds(calls[1..]) == (a * CallIds(calls)) * CallIds(calls[1..]);
      assert b * CallIds(calls[1..]) == (b * CallIds(calls)) * CallIds(calls[1..]);
      assert calls[0].id in a <==> calls[0].id in a * CallIds(calls);
      assert calls[0].id in b <==> calls[0].id in b * CallIds(calls);
      NoRepeatOutsideOwn(calls[1..], a, b);
    }
  }

  /** After repair: exactly the declared ids; twice only for a repeated unanswered declaration. */
  lemma RepairRunProps(calls: seq<ToolCall>, run: seq<Item>)
    requires AllResults(run)
    ensures AllResults(RepairRun(calls, run))
    ensures RunPaired(calls, RepairRun(calls, run)) && RunAnswered(calls, RepairRun(calls, run))
    ensures RunStrict(calls, RepairRun(calls, run)) <==> RepeatsAnswered(calls, run)
  {
    var d := DedupRun(calls, run);
    KeepLastProps(run);
    var k := StripRun(calls, d);
    KeepOwnedProps(CallIds(calls), d);
    FillRunProps(calls, k);
    NoRepeatOutsideOwn(calls, ResultIds(k), ResultIds(run));
    assert calls == [] ==> k == [];
  }

  // ---------- The condition ----------

  /** Every id that the owner declares more than once has a result in its run.
      `DistinctIdsRepairOnce`: this holds if every assistant declares distinct ids. */
  predicate RepeatsAnswered(calls: seq<ToolCall>, run: seq<Item>) {
    NoRepeatOutside(calls, ResultIds(run))
  }

  predicate RepeatedCallsAnswered(s: seq<Item>) { AllRuns(RepeatsAnswered, [], s) }

  lemma DedupKeepsResults()
    ensures KeepsResults(DedupRun) && KeepsResults(StripRun) && KeepsResults(FillRun)
    ensures KeepsResults(Compose(DedupRun, StripRun))
    ensures KeepsResults(Compose(Compose(DedupRun, StripRun), FillRun))
  {
    forall c, r: seq<Item> | AllResults(r) ensures AllResults(DedupRun(c, r)) {
      KeepLastProps(r);
    }
    forall c, r: seq<Item> | AllResults(r) ensures AllResults(StripRun(c, r)) {
      KeepOwnedProps(CallIds(c), r);
    }
    forall c, r: seq<Item> | AllResults(r) ensures AllResults(FillRun(c, r)) {
      FillRunProps(c, r);
    }
    ComposeKeepsResults(DedupRun, StripRun);
    ComposeKeepsResults(Compose(DedupRun, StripRun), FillRun);
  }

  lemma ComposeKeepsResults(f: RunMap, g: RunMap)
    requires KeepsResults(f) && KeepsResults(g)
    ensures KeepsResults(Compose(f, g))
  {
  }

  lemma RepairedFused(s: seq<Item>)
    ensures Repaired(s) == MapRuns(Compose(Compose(DedupRun, StripRun), FillRun), [], s)
  {
    DedupKeepsResults();
    MapRunsFuse(DedupRun, StripRun, [], s);
    MapRunsFuse(Compose(DedupRun, StripRun), FillRun, [], s);
  }

  // ---------- Main results ----------

  /** On every conversation, each result of the repaired history sits in the run of
      its owner and every declared call is answered there. */
  lemma RepairedIsPairedAndAnswered(s: seq<Item>)
    ensures Paired(Repaired(s)) && Answered(Repaired(s))
  {
    RepairedFused(s);
    DedupKeepsResults();
    forall c, r: seq<Item> | AllResults(r)
      ensures RunPaired(c, Compose(Compose(DedupRun, StripRun), FillRun)(c, r))
      ensures RunAnswered(c, Compose(Compose(DedupRun, StripRun), FillRun)(c, r))
    {
      RepairRunProps(c, r);
    }
    AllRunsTrue([], s);
    AllRunsOfMap(AlwaysTrue, RunPaired, Compose(Compose(DedupRun, StripRun), FillRun), [], s);
    AllRunsOfMap(AlwaysTrue, RunAnswered, Compose(Compose(DedupRun, StripRun), FillRun), [], s);
  }

  predicate AlwaysTrue(calls: seq<ToolCall>, run: seq<Item>) { true }

  lemma {:induction false} AllRunsTrue(calls: seq<ToolCall>, s: seq<Item>)
    ensures AllRuns(AlwaysTrue, calls, s)
    decreases |s|
  {
    var n := RunLen(s);
    if n < |s| { AllRunsTrue(CallsOf(s[n]), s[n + 1..]); }
  }

  /** Each declared id is answered exactly once if and only if no assistant declares
      one id twice without a result for it. */
  lemma RepairedIsStrictIff(s: seq<Item>)
    ensures Strict(Repaired(s)) <==> RepeatedCallsAnswered(s)
  {
    RepairedFused(s);
    DedupKeepsResults();
    forall c, r: seq<Item> | AllResults(r)
      ensures RunStrict(c, Compose(Compose(DedupRun, StripRun), FillRun)(c, r)) <==> RepeatsAnswered(c, r)
    {
      RepairRunProps(c, r);
    }
    AllRunsOfMap(RepeatsAnswered, RunStrict, Compose(Compose(DedupRun, StripRun), FillRun), [], s);
  }

  /** Repair keeps every item that is not a tool result, in order. */
  lemma RepairedKeepsNonResults(s: seq<Item>)
    ensures NonResults(Repaired(s)) == NonResults(s)
  {
    RepairedFused(s);
    DedupKeepsResults();
    MapRunsKeepsNonResults(Compose(Compose(DedupRun, StripRun), FillRun), [], s);
  }

  predicate RunDeduped(calls: seq<ToolCall>, run: seq<Item>) {
    calls == [] || DistinctIds(run)
  }

  lemma {:induction false} RepairedLengths(s: seq<Item>)
    ensures |Dedup(s)| <= |s| && (|Dedup(s)| == |s| <==> AllRuns(RunDeduped, [], s))
    ensures AllRuns(RunDeduped, [], s) ==> Dedup(s) == s
    ensures |Strip(s)| <= |s| && (|Strip(s)| == |s| <==> Paired(s))
    ensures Paired(s) ==> Strip(s) == s
    ensures |Fill(s)| >= |s| && (|Fill(s)| == |s| <==> Answered(s))
    ensures Answered(s) ==> Fill(s) == s
    ensures |Repaired(s)| >= |Strip(Dedup(s))|
  {
    forall c, r: seq<Item> | AllResults(r)
      ensures |DedupRun(c, r)| <= |r| && (|DedupRun(c, r)| == |r| <==> RunDeduped(c, r))
      ensures RunDeduped(c, r) ==> DedupRun(c, r) == r
      ensures |StripRun(c, r)| <= |r| && (|StripRun(c, r)| == |r| <==> RunPaired(c, r))
      ensures RunPaired(c, r) ==> StripRun(c, r) == r
      ensures |FillRun(c, r)| >= |r| && (|FillRun(c, r)| == |r| <==> RunAnswered(c, r))
      ensures RunAnswered(c, r) ==> FillRun(c, r) == r
    {
      KeepLastProps(r);
      KeepOwnedProps(CallIds(c), r);
      FillRunProps(c, r);
    }
    MapRunsShrinks(RunDeduped, DedupRun, [], s);
    MapRunsShrinks(RunPaired, StripRun, [], s);
    MapRunsGrows(RunAnswered, FillRun, [], s);
    MapRunsGrows(RunAnswered, FillRun, [], Strip(Dedup(s)));
    if AllRuns(RunDeduped, [], s) { MapRunsIdentity(RunDeduped, DedupRun, [], s); }
    if Paired(s) { MapRunsIdentity(RunPaired, StripRun, [], s); }
    if Answered(s) { MapRunsIdentity(RunAnswered, FillRun, [], s); }
  }

  /** The per-item scan of the source, and the run rewrite it amounts to. */
  function StripItems(ids: set<string>, s: seq<Item>): seq<Item>
    decreases |s|
  {
    if s == [] then []
    else if s[0].ToolResult? then (if s[0].id in ids then [s[0]] else []) + StripItems(ids, s[1..])
    else [s[0]] + StripItems(CallIds(CallsOf(s[0])), s[1..])
  }

  lemma {:induction false} StripResult(calls: seq<ToolCall>, s: seq<Item>)
    requires s != [] && s[0].ToolResult?
    ensures MapRuns(StripRun, calls, s) == KeepOwned(CallIds(calls), [s[0]]) + MapRuns(StripRun, calls, s[1..])
  {
    var n := RunLen(s[1..]);
    var x, run, rest := s[0], s[1..][..n], s[1..][n..];
    assert s[1..] == run + rest && s == ([x] + run) + rest;
    StripRunCons(calls, x, run);
    MapRunsCons(StripRun, calls, KeepOwned(CallIds(calls), [x]), x, run, rest);
  }

  lemma StripRunCons(calls: seq<ToolCall>, x: Item, run: seq<Item>)
    requires x.ToolResult?
    ensures KeepOwned(CallIds(calls), [x] + run) == KeepOwned(CallIds(calls), [x]) + KeepOwned(CallIds(calls), run)
  {
    assert ([x] + run)[1..] == run && [x][1..] == [];
  }

  lemma {:induction false} StripItemsIsStrip(calls: seq<ToolCall>, s: seq<Item>)
    ensures StripItems(CallIds(calls), s) == MapRuns(StripRun, calls, s)
    decreases |s|
  {
    if s == [] {
    } else if s[0].ToolResult? {
      StripItemsIsStrip(calls, s[1..]);
      StripResult(calls, s);
    } else {
      StripItemsIsStrip(CallsOf(s[0]), s[1..]);
    }
  }

  lemma {:induction false} StrippedCount(ids: set<string>, s: seq<Item>)
    ensures |StripItems(ids, s)| + |StrippedIds(ids, s)| == |s|
    decreases |s|
  {
    if s != [] {
      StrippedCount(if s[0].ToolResult? then ids else CallIds(CallsOf(s[0])), s[1..]);
    }
  }

  /** `|out| = |in| - duplicates - stripped + synthetic`. */
  lemma RepairedLength(s: seq<Item>)
    ensures var r := ReportOf(s);
            |Repaired(s)| == |s| - r.duplicatesRemoved - |r.strippedIds| + r.syntheticInserted
  {
    StripItemsIsStrip([], Dedup(s));
    assert CallIds([]) == {};
    StrippedCount({}, Dedup(s));
  }

  /** The report is clean exactly on histories that already satisfy the provider
      rule, and those are returned unchanged. */
  lemma UnchangedIffStrict(s: seq<Item>)
    ensures !ReportOf(s).Changed() <==> Strict(s)
    ensures Strict(s) ==> Repaired(s) == s
  {
    RepairedLengths(s);
    RepairedLengths(Dedup(s));
    RepairedLengths(Strip(Dedup(s)));
    assert CallIds([]) == {};
    StripItemsIsStrip([], Dedup(s));
    StrippedCount({}, Dedup(s));
    if Strict(s) {
      AllRunsWeaken(RunStrict, RunDeduped, [], s);
      AllRunsWeaken(RunStrict, RunPaired, [], s);
      AllRunsWeaken(RunStrict, RunAnswered, [], s);
    } else if !ReportOf(s).Changed() {
      assert Dedup(s) == s && Strip(s) == s;
      StrictFromParts([], s);
    }
  }

  lemma {:induction false} StrictFromParts(calls: seq<ToolCall>, s: seq<Item>)
    requires AllRuns(RunDeduped, calls, s) && AllRuns(RunPaired, calls, s) && AllRuns(RunAnswered, calls, s)
    ensures AllRuns(RunStrict, calls, s)
    decreases |s|
  {
    var n := RunLen(s);
    if calls == [] && n > 0 {
      assert false;
    }
    if n < |s| {
      StrictFromParts(CallsOf(s[n]), s[n + 1..]);
    }
  }

  /** The documentation calls the repair idempotent.  It is, exactly when no assistant
      repeats an unanswered call id; two runs always reach the fixed point. */
  lemma SecondRepairIsCleanIff(s: seq<Item>)
    ensures !ReportOf(Repaired(s)).Changed() <==> RepeatedCallsAnswered(s)
    ensures RepeatedCallsAnswered(s) ==> Repaired(Repaired(s)) == Repaired(s)
    ensures Strict(Repaired(Repaired(s)))
  {
    UnchangedIffStrict(Repaired(s));
    RepairedIsStrictIff(s);
    RepairedIsPairedAndAnswered(s);
    RepairedIsStrictIff(Repaired(s));
    forall c: seq<ToolCall>, r: seq<Item> | AllResults(r) && RunAnswered(c, r) ensures RepeatsAnswered(c, r) {
      AnsweredRepeats(c, ResultIds(r));
    }
    AllRunsWeaken(RunAnswered, RepeatsAnswered, [], Repaired(s));
  }

  lemma {:induction false} AnsweredRepeats(calls: seq<ToolCall>, answered: set<string>)
    requires CallIds(calls) <= answered
    ensures NoRepeatOutside(calls, answered)
  {
    if calls != [] {
      AnsweredRepeats(calls[1..], answered);
    }
  }

  /** No id is declared twice. */
  predicate DeclaresOnce(calls: seq<ToolCall>) {
    calls == [] || (calls[0].id !in CallIds(calls[1..]) && DeclaresOnce(calls[1..]))
  }

  /** The documented case: every assistant declares distinct ids.  Then one repair gives a
      strict history, and a second one finds nothing to do. */
  lemma DistinctIdsRepairOnce(s: seq<Item>)
    requires forall x | x in s :: DeclaresOnce(CallsOf(x))
    ensures Strict(Repaired(s)) && !ReportOf(Repaired(s)).Changed() && Repaired(Repaired(s)) == Repaired(s)
  {
    DistinctIdsHaveNoRepeats([], s);
    RepairedIsStrictIff(s);
    SecondRepairIsCleanIff(s);
  }

  lemma {:induction false} DistinctIdsHaveNoRepeats(calls: seq<ToolCall>, s: seq<Item>)
    requires DeclaresOnce(calls) && forall x | x in s :: DeclaresOnce(CallsOf(x))
    ensures AllRuns(RepeatsAnswered, calls, s)
    decreases |s|
  {
    var n := RunLen(s);
    OnceHasNoRepeat(calls, ResultIds(s[..n]));
    if n < |s| {
      assert s[n] in s;
      assert forall x | x in s[n + 1..] :: x in s;
      DistinctIdsHaveNoRepeats(CallsOf(s[n]), s[n + 1..]);
    }
  }

  lemma {:induction false} OnceHasNoRepeat(calls: seq<ToolCall>, answered: set<string>)
    requires DeclaresOnce(calls)
    ensures NoRepeatOutside(calls, answered)
  {
    if calls != [] {
      OnceHasNoRepeat(calls[1..], answered);
    }
  }

  /** A history on which one repair does not settle. */
  lemma RepeatedDeclarationIsRepairedTwice()
    ensures var a := ToolCall("a", "t", "{}");
            ReportOf(Repaired([Assistant("", [a, a])])).Changed()
  {
    var a := ToolCall("a", "t", "{}");
    var s := [Assistant("", [a, a])];
    assert s[1..] == [] && s[..0] == [];
    assert CallsOf(s[0]) == [a, a];
    assert [a, a][1..] == [a];
    var none: seq<Item> := [];
    assert RunLen(none) == 0 && none[..0] == none;
    assert !AllRuns(RepeatsAnswered, CallsOf(s[0]), []);
    assert !RepeatedCallsAnswered(s);
    SecondRepairIsCleanIff(s);
  }

  /** The last result of `run` that carries `id`. */
  function LastWith(run: seq<Item>, id: string): Option<Item> {
    if run == [] then None
    else if LastWith(run[1..], id).Some? then LastWith(run[1..], id)
    else if run[0].ToolResult? && run[0].id == id then Some(run[0]) else None
  }

  lemma {:induction false} LastWithSome(run: seq<Item>, id: string)
    ensures LastWith(run, id).Some? <==> id in ResultIds(run)
  {
    if run != [] {
      LastWithSome(run[1..], id);
    }
  }

  lemma {:induction false} LastWithConcat(a: seq<Item>, b: seq<Item>, id: string)
    ensures LastWith(a + b, id) == if LastWith(b, id).Some? then LastWith(b, id) else LastWith(a, id)
  {
    if a == [] {
      assert a + b == b;
    } else {
      assert (a + b)[1..] == a[1..] + b;
      LastWithConcat(a[1..], b, id);
    }
  }

  lemma {:induction false} LastWithKeepLast(run: seq<Item>, id: string)
    ensures LastWith(KeepLast(run), id) == LastWith(run, id)
  {
    if run != [] {
      LastWithKeepLast(run[1..], id);
      LastWithSome(run[1..], id);
      assert ([run[0]] + KeepLast(run[1..]))[1..] == KeepLast(run[1..]);
    }
  }

  lemma {:induction false} LastWithKeepOwned(ids: set<string>, run: seq<Item>, id: string)
    requires id in ids
    ensures LastWith(KeepOwned(ids, run), id) == LastWith(run, id)
  {
    if run != [] {
      LastWithKeepOwned(ids, run[1..], id);
      var rest := KeepOwned(ids, run[1..]);
      if run[0].ToolResult? && run[0].id !in ids {
        assert KeepOwned(ids, run) == rest;
      } else {
        assert KeepOwned(ids, run) == [run[0]] + rest && ([run[0]] + rest)[1..] == rest;
      }
    }
  }

  /** A declared id that had results in its run is answered by the last of them; a synthetic
      result appears only where there was none. */
  ghost predicate AnsweredByLast(calls: seq<ToolCall>, run: seq<Item>, repaired: seq<Item>) {
    forall id | id in CallIds(calls) ::
      if id in ResultIds(run) then LastWith(repaired, id) == LastWith(run, id)
      else exists c | c in calls && c.id == id :: LastWith(repaired, id) == Some(SyntheticResult(c))
  }

  /** So it is in every run of every conversation, and the items between the runs stay. */
  lemma LastResultWins(s: seq<Item>)
    ensures SideBySide((c, r, t) => AnsweredByLast(c, r, t), [], s, Repaired(s))
  {
    var repair := Compose(Compose(DedupRun, StripRun), FillRun);
    RepairedFused(s);
    DedupKeepsResults();
    forall c, r: seq<Item> | AllResults(r) ensures AnsweredByLast(c, r, repair(c, r)) {
      forall id | id in CallIds(c) { LastOfRunWins(c, r, id); }
    }
    MapRunsSideBySide((c, r, t) => AnsweredByLast(c, r, t), repair, [], s);
  }

  lemma {:induction false} LastOfRunWins(calls: seq<ToolCall>, run: seq<Item>, id: string)
    requires AllResults(run) && id in CallIds(calls)
    ensures id in ResultIds(run) ==> LastWith(RepairRun(calls, run), id) == LastWith(run, id)
    ensures id !in ResultIds(run) ==>
              exists c | c in calls && c.id == id :: LastWith(RepairRun(calls, run), id) == Some(SyntheticResult(c))
  {
    hide KeepOwned, KeepLast, Backfill, ResultIds, LastWith;
    var deduped := DedupRun(calls, run);
    var kept := StripRun(calls, deduped);
    LastWithKeepLast(run, id);
    KeepLastProps(run);
    LastWithKeepOwned(CallIds(calls), deduped, id);
    KeepOwnedProps(CallIds(calls), deduped);
    LastWithConcat(kept, Backfill(calls, ResultIds(kept)), id);
    LastWithSome(kept, id);
    BackfillLast(calls, ResultIds(kept), id);
  }

  lemma {:induction false} BackfillLast(calls: seq<ToolCall>, answered: set<string>, id: string)
    ensures id in answered || id !in CallIds(calls) ==> LastWith(Backfill(calls, answered), id).None?
    ensures id !in answered && id in CallIds(calls) ==>
              exists c | c in calls && c.id == id :: LastWith(Backfill(calls, answered), id) == Some(SyntheticResult(c))
  {
    if calls != [] {
      BackfillLast(calls[1..], answered, id);
      var b := Backfill(calls[1..], answered);
      var x := SyntheticResult(calls[0]);
      assert calls[0] in calls;
      if calls[0].id in answered {
        assert Backfill(calls, answered) == b;
      } else {
        assert Backfill(calls, answered) == [x] + b && ([x] + b)[1..] == b;
      }
    }
  }

  // ---------- The repaired run, position by position ----------

  /** No later result of the run carries the same id. */
  predicate LastOfItsId(run: seq<Item>, p: nat) {
    p < |run| && run[p].ToolResult? && forall q | p < q < |run| && run[q].ToolResult? :: run[q].id != run[p].id
  }

  /** The results of the run that are the last with their id and whose id is in `ids`. */
  function Survivors(ids: set<string>, run: seq<Item>): set<nat> {
    set p: nat | p < |run| && LastOfItsId(run, p) && run[p].ToolResult? && run[p].id in ids
  }

  /** The calls that no result of the run answers. */
  function Unanswered(calls: seq<ToolCall>, run: seq<Item>): set<nat> {
    set k: nat | k < |calls| && forall q | 0 <= q < |run| && run[q].ToolResult? :: run[q].id != calls[k].id
  }

  /** First the surviving results, in their old order; then a synthetic result for every
      unanswered call, in the order of the calls. */
  ghost predicate RepairedInOrder(calls: seq<ToolCall>, run: seq<Item>, repaired: seq<Item>) {
    exists m: nat ::
      && m <= |repaired|
      && Selects(repaired[..m], run, Survivors(CallIds(calls), run))
      && Selects(repaired[m..], Synthetic(calls), Unanswered(calls, run))
  }

  function Synthetic(calls: seq<ToolCall>): (r: seq<Item>)
    ensures |r| == |calls| && forall k | 0 <= k < |r| :: r[k] == SyntheticResult(calls[k])
  {
    seq(|calls|, k requires 0 <= k < |calls| => SyntheticResult(calls[k]))
  }

  /** In every conversation repair puts every run in this order, which determines it, and
      leaves the items between the runs alone. */
  lemma RepairedRunsInOrder(s: seq<Item>)
    ensures SideBySide((c, r, t) => RepairedInOrder(c, r, t), [], s, Repaired(s))
  {
    var repair := Compose(Compose(DedupRun, StripRun), FillRun);
    RepairedFused(s);
    DedupKeepsResults();
    forall c, r: seq<Item> | AllResults(r) ensures RepairedInOrder(c, r, repair(c, r)) {
      RunInOrder(c, r);
    }
    MapRunsSideBySide((c, r, t) => RepairedInOrder(c, r, t), repair, [], s);
  }

  lemma RunInOrder(calls: seq<ToolCall>, run: seq<Item>)
    requires AllResults(run)
    ensures RepairedInOrder(calls, run, RepairRun(calls, run))
  {
    var kept := StripRun(calls, DedupRun(calls, run));
    var m := |kept|;
    var filled := Backfill(calls, ResultIds(kept));
    if calls == [] {
      KeepOwnedNothing(run);
      assert Survivors({}, run) == {};
      SelectsNothing(run);
    } else {
      KeptSelects(CallIds(calls), run);
    }
    KeptIds(calls, run);
    BackfillSelects(calls, run, ResultIds(kept));
    assert RepairRun(calls, run)[..m] == kept && RepairRun(calls, run)[m..] == filled;
  }

  lemma {:induction false} KeepOwnedNothing(run: seq<Item>)
    requires AllResults(run)
    ensures KeepOwned({}, run) == []
  {
    if run != [] { KeepOwnedNothing(run[1..]); }
  }

  lemma LastOfItsIdShift(run: seq<Item>, p: nat)
    requires run != []
    ensures LastOfItsId(run, p + 1) <==> LastOfItsId(run[1..], p)
  {
    if LastOfItsId(run, p + 1) {
      forall q | p < q < |run[1..]| && run[1..][q].ToolResult? ensures run[1..][q].id != run[1..][p].id {
        assert run[q + 1] == run[1..][q];
      }
    }
    if LastOfItsId(run[1..], p) {
      forall q | p + 1 < q < |run| && run[q].ToolResult? ensures run[q].id != run[p + 1].id {
        assert run[q] == run[1..][q - 1];
      }
    }
  }

  lemma FirstIsLast(run: seq<Item>)
    requires run != [] && run[0].ToolResult?
    ensures LastOfItsId(run, 0) <==> run[0].id !in ResultIds(run[1..])
  {
    ResultIdsByPosition(run[1..], run[0].id);
    if run[0].id in ResultIds(run[1..]) {
      var k :| 0 <= k < |run[1..]| && run[1..][k].ToolResult? && run[1..][k].id == run[0].id;
      assert run[k + 1] == run[1..][k];
    } else {
      forall q | 0 < q < |run| && run[q].ToolResult? ensures run[q].id != run[0].id {
        assert run[q] == run[1..][q - 1];
      }
    }
  }

  lemma {:induction false} KeptSelects(ids: set<string>, run: seq<Item>)
    requires AllResults(run)
    ensures Selects(KeepOwned(ids, KeepLast(run)), run, Survivors(ids, run))
  {
    if run == [] {
      assert Survivors(ids, run) == {};
      SelectsNothing(run);
    } else {
      KeptSelects(ids, run[1..]);
      FirstIsLast(run);
      forall p: nat ensures p in Survivors(ids, run[1..]) <==> p + 1 in Survivors(ids, run) {
        LastOfItsIdShift(run, p);
      }
      SelectsCons(KeepOwned(ids, KeepLast(run[1..])), run, Survivors(ids, run[1..]), Survivors(ids, run));
      KeptCons(ids, run);
    }
  }

  lemma KeptCons(ids: set<string>, run: seq<Item>)
    requires run != [] && run[0].ToolResult?
    ensures KeepOwned(ids, KeepLast(run)) ==
            (if run[0].id in ids && run[0].id !in ResultIds(run[1..]) then [run[0]] else []) + KeepOwned(ids, KeepLast(run[1..]))
  {
    var rest := KeepLast(run[1..]);
    assert ([run[0]] + rest)[1..] == rest;
  }

  /** Deduplicating and stripping removes the answer to no call. */
  lemma KeptIds(calls: seq<ToolCall>, run: seq<Item>)
    requires AllResults(run)
    ensures ResultIds(StripRun(calls, DedupRun(calls, run))) == ResultIds(run) * CallIds(calls)
  {
    KeepLastProps(run);
    KeepOwnedProps(CallIds(calls), DedupRun(calls, run));
  }

  lemma {:induction false} BackfillSelects(calls: seq<ToolCall>, run: seq<Item>, answered: set<string>)
    requires forall id | id in CallIds(calls) :: id in answered <==> id in ResultIds(run)
    ensures Selects(Backfill(calls, answered), Synthetic(calls), Unanswered(calls, run))
  {
    if calls == [] {
      assert Unanswered(calls, run) == {};
      SelectsNothing(Synthetic(calls));
    } else {
      BackfillSelects(calls[1..], run, answered);
      assert Synthetic(calls)[1..] == Synthetic(calls[1..]);
      forall k: nat ensures k in Unanswered(calls[1..], run) <==> k + 1 in Unanswered(calls, run) {
      }
      ResultIdsByPosition(run, calls[0].id);
      assert 0 in Unanswered(calls, run) <==> calls[0].id !in answered;
      SelectsCons(Backfill(calls[1..], answered), Synthetic(calls), Unanswered(calls[1..], run), Unanswered(calls, run));
    }
  }

  // ---------- The report, position by position ----------

  function LastOnes(run: seq<Item>): set<nat> { set p: nat | p < |run| && LastOfItsId(run, p) }

  /** Under an owner with calls, deduplicating keeps the last result of every id, in order. */
  ghost predicate DedupedInOrder(calls: seq<ToolCall>, run: seq<Item>, deduped: seq<Item>) {
    if calls == [] then deduped == run else Selects(deduped, run, LastOnes(run))
  }

  lemma DedupInOrder(s: seq<Item>)
    ensures SideBySide((c, r, t) => DedupedInOrder(c, r, t), [], s, Dedup(s))
  {
    DedupKeepsResults();
    forall c, r: seq<Item> | AllResults(r) ensures DedupedInOrder(c, r, DedupRun(c, r)) {
      KeepLastSelects(r);
    }
    MapRunsSideBySide((c, r, t) => DedupedInOrder(c, r, t), DedupRun, [], s);
  }

  lemma {:induction false} KeepLastSelects(run: seq<Item>)
    requires AllResults(run)
    ensures Selects(KeepLast(run), run, LastOnes(run))
  {
    var ids := ResultIds(run);
    KeptSelects(ids, run);
    KeepLastProps(run);
    KeepOwnedProps(ids, KeepLast(run));
    SurvivorsOfAll(run);
  }

  lemma SurvivorsOfAll(run: seq<Item>)
    ensures Survivors(ResultIds(run), run) == LastOnes(run)
  {
    hide LastOfItsId, ResultIds;
    forall p | p in LastOnes(run) ensures p in Survivors(ResultIds(run), run) {
      LastIsResult(run, p);
      ResultIdsByPosition(run, run[p].id);
    }
  }

  lemma LastIsResult(run: seq<Item>, p: nat)
    requires LastOfItsId(run, p)
    ensures p < |run| && run[p].ToolResult?
  {
  }

  /** The result at `k` is not declared by the item before its run; `ids` stands for what
      an item before `s` declares. */
  predicate Displaced(ids: set<string>, s: seq<Item>, k: nat) {
    k < |s| && s[k].ToolResult? &&
    s[k].id !in (if OwnerIndex(s, k) == -1 then ids else CallIds(CallsOf(s[OwnerIndex(s, k)])))
  }

  function DisplacedAt(ids: set<string>, s: seq<Item>): set<nat> { set k: nat | k < |s| && Displaced(ids, s, k) }

  lemma {:induction false} OwnerIndexCons(s: seq<Item>, k: nat)
    requires k < |s|
    ensures var o := OwnerIndex(s[1..], k);
            OwnerIndex(s, k + 1) == if o >= 0 then o + 1 else if s[0].ToolResult? then -1 else 0
  {
    if k > 0 {
      assert s[1..][k - 1] == s[k];
      OwnerIndexCons(s, k - 1);
    }
  }

  lemma DisplacedCons(ids: set<string>, s: seq<Item>, k: nat)
    requires s != []
    ensures Displaced(ids, s, k + 1) <==> Displaced(if s[0].ToolResult? then ids else CallIds(CallsOf(s[0])), s[1..], k)
  {
    if k + 1 < |s| {
      OwnerIndexCons(s, k);
      assert s[1..][k] == s[k + 1];
      var o := OwnerIndex(s[1..], k);
      if o >= 0 { assert s[1..][o] == s[o + 1]; }
    }
  }

  /** The report lists the displaced results of the deduplicated conversation, in order. */
  lemma {:induction false} StrippedInOrder(ids: set<string>, s: seq<Item>)
    ensures Selects(StrippedIds(ids, s), IdsIn(s), DisplacedAt(ids, s))
    decreases |s|
  {
    if s == [] {
      assert DisplacedAt(ids, s) == {};
      SelectsNothing(IdsIn(s));
    } else {
      var next := if s[0].ToolResult? then ids else CallIds(CallsOf(s[0]));
      StrippedInOrder(next, s[1..]);
      StrippedStep(ids, s, next);
    }
  }

  lemma StrippedStep(ids: set<string>, s: seq<Item>, next: set<string>)
    requires s != [] && next == if s[0].ToolResult? then ids else CallIds(CallsOf(s[0]))
    requires Selects(StrippedIds(next, s[1..]), IdsIn(s[1..]), DisplacedAt(next, s[1..]))
    ensures Selects(StrippedIds(ids, s), IdsIn(s), DisplacedAt(ids, s))
  {
    hide Displaced, Selects, CallIds;
    var t := StrippedIds(next, s[1..]);
    forall k: nat ensures k in DisplacedAt(next, s[1..]) <==> k + 1 in DisplacedAt(ids, s) {
      DisplacedCons(ids, s, k);
    }
    assert IdsIn(s)[1..] == IdsIn(s[1..]);
    SelectsCons(t, IdsIn(s), DisplacedAt(next, s[1..]), DisplacedAt(ids, s));
    FirstDisplaced(ids, s);
    assert [] + t == t;
  }

  lemma FirstDisplaced(ids: set<string>, s: seq<Item>)
    requires s != []
    ensures 0 in DisplacedAt(ids, s) <==> s[0].ToolResult? && s[0].id !in ids
  {
  }
}
