/** Compaction of a conversation: the sanitizer and its validator, the tail since the
last real user turn, and the compacted history built around a summary. */
module Compaction {
  import opened Options
  import opened Conversation
  import opened Sequences
  import CompactSummary
  import Text

  // ---------- Sanitize and validate ----------

  /** The ids declared so far, after `x`. */
  function Declare(seen: set<string>, x: Item): set<string> {
    if x.Assistant? then seen + CallIds(x.calls) else seen
  }

  /** Ids of the results without a declaring assistant anywhere before them. */
  function Orphans(seen: set<string>, s: seq<Item>): seq<string>
    decreases |s|
  {
    if s == [] then []
    else (if s[0].ToolResult? && s[0].id !in seen then [s[0].id] else [])
         + Orphans(Declare(seen, s[0]), s[1..])
  }

  function WithoutOrphans(seen: set<string>, s: seq<Item>): seq<Item>
    decreases |s|
  {
    if s == [] then []
    else (if s[0].ToolResult? && s[0].id !in seen then [] else [s[0]])
         + WithoutOrphans(Declare(seen, s[0]), s[1..])
  }

  lemma OrphansStep(seen: set<string>, s: seq<Item>, i: nat, kept: seq<Item>, bad: seq<string>)
    requires i < |s|
    ensures var drop := s[i].ToolResult? && s[i].id !in seen;
            var next := Declare(seen, s[i]);
            bad + Orphans(seen, s[i..]) == (if drop then bad + [s[i].id] else bad) + Orphans(next, s[i + 1..]) &&
            kept + WithoutOrphans(seen, s[i..]) == (if drop then kept else kept + [s[i]]) + WithoutOrphans(next, s[i + 1..])
  {
    var next := Declare(seen, s[i]);
    assert s[i..][0] == s[i] && s[i..][1..] == s[i + 1..];
    assert kept + ([s[i]] + WithoutOrphans(next, s[i + 1..])) == (kept + [s[i]]) + WithoutOrphans(next, s[i + 1..]);
    assert kept + ([] + WithoutOrphans(next, s[i + 1..])) == kept + WithoutOrphans(next, s[i + 1..]);
    if s[i].ToolResult? {
      assert bad + ([s[i].id] + Orphans(next, s[i + 1..])) == (bad + [s[i].id]) + Orphans(next, s[i + 1..]);
    }
  }

  method ValidateCompactedHistory(items: seq<Item>) returns (invalid: seq<string>)
    ensures invalid == Orphans({}, items)
  {
    var seen: set<string> := {};
    invalid := [];
    assert items[0..] == items;
    for i := 0 to |items|
      invariant invalid + Orphans(seen, items[i..]) == Orphans({}, items)
    {
      OrphansStep(seen, items, i, [], invalid);
      if items[i].Assistant? {
        seen := seen + CallIds(items[i].calls);
      } else if items[i].ToolResult? && items[i].id !in seen {
        invalid := invalid + [items[i].id];
      }
    }
  }

  method SanitizeCompactedHistory(items: seq<Item>) returns (out: seq<Item>, stripped: seq<string>)
    ensures out == WithoutOrphans({}, items)
    ensures stripped == Orphans({}, items)
  {
    var seen: set<string> := {};
    out, stripped := [], [];
    assert items[0..] == items;
    for i := 0 to |items|
      invariant out + WithoutOrphans(seen, items[i..]) == WithoutOrphans({}, items)
      invariant stripped + Orphans(seen, items[i..]) == Orphans({}, items)
    {
      OrphansStep(seen, items, i, out, stripped);
      if items[i].Assistant? {
        seen := seen + CallIds(items[i].calls);
        out := out + [items[i]];
      } else if items[i].ToolResult? && items[i].id !in seen {
        stripped := stripped + [items[i].id];
      } else {
        out := out + [items[i]];
      }
    }
  }

  /** The sanitizer's output validates, keeps all other items in order, and drops
      exactly what the validator reports. */
  lemma {:induction false} SanitizedIsValid(seen: set<string>, s: seq<Item>)
    ensures Orphans(seen, WithoutOrphans(seen, s)) == []
    ensures NonResults(WithoutOrphans(seen, s)) == NonResults(s)
    ensures |WithoutOrphans(seen, s)| + |Orphans(seen, s)| == |s|
    ensures Orphans(seen, s) == [] ==> WithoutOrphans(seen, s) == s
    decreases |s|
  {
    if s != [] {
      var next := Declare(seen, s[0]);
      var t := WithoutOrphans(next, s[1..]);
      SanitizedIsValid(next, s[1..]);
      assert ([s[0]] + t)[1..] == t;
      if s[0].ToolResult? && s[0].id !in seen {
        assert WithoutOrphans(seen, s) == t;
      } else {
        assert WithoutOrphans(seen, s) == [s[0]] + t;
      }
    }
  }

  /** `k` is a result whose id an earlier assistant declares. */
  ghost predicate DeclaredBefore(seen: set<string>, s: seq<Item>, k: nat)
    requires k < |s| && s[k].ToolResult?
  {
    s[k].id in seen || exists i | 0 <= i < k :: s[k].id in CallIds(CallsOf(s[i]))
  }

  lemma DeclaredShift(seen: set<string>, s: seq<Item>, k: nat)
    requires k + 1 < |s| && s[k + 1].ToolResult?
    ensures DeclaredBefore(seen, s, k + 1) <==> DeclaredBefore(Declare(seen, s[0]), s[1..], k)
  {
    var next, t := Declare(seen, s[0]), s[1..];
    var id := s[k + 1].id;
    if id !in next && DeclaredBefore(next, t, k) {
      var i :| 0 <= i < k && id in CallIds(CallsOf(t[i]));
      assert s[i + 1] == t[i];
    }
    if id !in next && DeclaredBefore(seen, s, k + 1) {
      var i :| 0 <= i < k + 1 && id in CallIds(CallsOf(s[i]));
      assert t[i - 1] == s[i];
    }
    if id in next && id !in seen {
      assert id in CallIds(CallsOf(s[0]));
    }
  }

  ghost predicate AllDeclaredBefore(seen: set<string>, s: seq<Item>) {
    forall k: nat | k < |s| && s[k].ToolResult? :: DeclaredBefore(seen, s, k)
  }

  lemma DeclaredCons(seen: set<string>, s: seq<Item>)
    requires s != []
    ensures AllDeclaredBefore(seen, s) <==>
            (s[0].ToolResult? ==> s[0].id in seen) && AllDeclaredBefore(Declare(seen, s[0]), s[1..])
  {
    var next, t := Declare(seen, s[0]), s[1..];
    if AllDeclaredBefore(seen, s) {
      assert s[0].ToolResult? ==> DeclaredBefore(seen, s, 0);
      forall k: nat | k < |t| && t[k].ToolResult? ensures DeclaredBefore(next, t, k) {
        assert t[k] == s[k + 1];
        DeclaredShift(seen, s, k);
      }
    }
    if (s[0].ToolResult? ==> s[0].id in seen) && AllDeclaredBefore(next, t) {
      forall k: nat | k < |s| && s[k].ToolResult? ensures DeclaredBefore(seen, s, k) {
        if k > 0 {
          assert t[k - 1] == s[k];
          DeclaredShift(seen, s, k - 1);
        }
      }
    }
  }

  /** What a clean validation means. */
  lemma {:induction false} ValidIffDeclaredBefore(seen: set<string>, s: seq<Item>)
    ensures Orphans(seen, s) == [] <==> AllDeclaredBefore(seen, s)
    decreases |s|
  {
    if s != [] {
      ValidIffDeclaredBefore(Declare(seen, s[0]), s[1..]);
      DeclaredCons(seen, s);
    }
  }

  /** Adjacency is stricter than "declared somewhere before": a paired history has no orphans. */
  lemma {:induction false} PairedHasNoOrphans(calls: seq<ToolCall>, seen: set<string>, s: seq<Item>)
    requires AllRuns(RunPaired, calls, s) && CallIds(calls) <= seen
    ensures Orphans(seen, s) == []
    decreases |s|
  {
    var n := RunLen(s);
    RunHasNoOrphans(seen, s[..n], s[n..]);
    assert s == s[..n] + s[n..];
    if n < |s| {
      assert s[n..][0] == s[n] && s[n..][1..] == s[n + 1..];
      PairedHasNoOrphans(CallsOf(s[n]), Declare(seen, s[n]), s[n + 1..]);
    }
  }

  lemma {:induction false} RunHasNoOrphans(seen: set<string>, run: seq<Item>, rest: seq<Item>)
    requires AllResults(run) && ResultIds(run) <= seen
    ensures Orphans(seen, run + rest) == Orphans(seen, rest)
  {
    if run == [] {
      assert run + rest == rest;
    } else {
      assert (run + rest)[1..] == run[1..] + rest;
      RunHasNoOrphans(seen, run[1..], rest);
    }
  }

  // ---------- What exactly is sanitized ----------

  /** The results without a declaring assistant anywhere before them. */
  ghost function OrphansAt(seen: set<string>, s: seq<Item>): set<nat> {
    set k: nat | k < |s| && s[k].ToolResult? && !DeclaredBefore(seen, s, k)
  }

  ghost function OthersAt(seen: set<string>, s: seq<Item>): set<nat> {
    set k: nat | k < |s| && k !in OrphansAt(seen, s)
  }

  lemma OrphansCons(seen: set<string>, s: seq<Item>, k: nat)
    requires s != []
    ensures k + 1 in OrphansAt(seen, s) <==> k in OrphansAt(Declare(seen, s[0]), s[1..])
    ensures k + 1 in OthersAt(seen, s) <==> k in OthersAt(Declare(seen, s[0]), s[1..])
    ensures 0 in OrphansAt(seen, s) <==> s[0].ToolResult? && s[0].id !in seen
    ensures 0 in OthersAt(seen, s) <==> !(s[0].ToolResult? && s[0].id !in seen)
  {
    if k + 1 < |s| && s[k + 1].ToolResult? { DeclaredShift(seen, s, k); }
  }

  /** The sanitizer keeps everything but the orphans, and the validator lists their ids,
      both in order. */
  lemma {:induction false} SanitizedInOrder(seen: set<string>, s: seq<Item>)
    ensures Selects(WithoutOrphans(seen, s), s, OthersAt(seen, s))
    ensures Selects(Orphans(seen, s), IdsIn(s), OrphansAt(seen, s))
    decreases |s|
  {
    if s == [] {
      assert OthersAt(seen, s) == OrphansAt(seen, s) == {};
      SelectsNothing(s);
      SelectsNothing(IdsIn(s));
    } else {
      SanitizedInOrder(Declare(seen, s[0]), s[1..]);
      SanitizedStep(seen, s, Declare(seen, s[0]));
    }
  }

  lemma SanitizedStep(seen: set<string>, s: seq<Item>, next: set<string>)
    requires s != [] && next == Declare(seen, s[0])
    requires Selects(WithoutOrphans(next, s[1..]), s[1..], OthersAt(next, s[1..]))
    requires Selects(Orphans(next, s[1..]), IdsIn(s[1..]), OrphansAt(next, s[1..]))
    ensures Selects(WithoutOrphans(seen, s), s, OthersAt(seen, s))
    ensures Selects(Orphans(seen, s), IdsIn(s), OrphansAt(seen, s))
  {
    hide Selects, OrphansAt, OthersAt;
    forall k: nat
      ensures k in OthersAt(next, s[1..]) <==> k + 1 in OthersAt(seen, s)
      ensures k in OrphansAt(next, s[1..]) <==> k + 1 in OrphansAt(seen, s)
    {
      OrphansCons(seen, s, k);
    }
    OrphansCons(seen, s, 0);
    assert IdsIn(s)[1..] == IdsIn(s[1..]);
    SelectsCons(WithoutOrphans(next, s[1..]), s, OthersAt(next, s[1..]), OthersAt(seen, s));
    SelectsCons(Orphans(next, s[1..]), IdsIn(s), OrphansAt(next, s[1..]), OrphansAt(seen, s));
  }

  // ---------- The tail since the last real user turn ----------

  function Placeholder(r: Item): Item
    requires r.ToolResult?
  {
    ToolResult(r.id, "Tool call omitted...", [])
  }

  /** Keep assistants, replace result contents, drop everything else. */
  function Omitted(s: seq<Item>): seq<Item> {
    if s == [] then []
    else (if s[0].Assistant? then [s[0]] else if s[0].ToolResult? then [Placeholder(s[0])] else []) + Omitted(s[1..])
  }

  /** Position after the last item that `isReal` accepts. */
  function AfterLast(isReal: Item -> bool, s: seq<Item>): (k: nat)
    ensures k <= |s|
    ensures k > 0 ==> isReal(s[k - 1])
    ensures forall j | k <= j < |s| :: !isReal(s[j])
  {
    if s == [] then 0
    else if isReal(s[|s| - 1]) then |s|
    else AfterLast(isReal, s[..|s| - 1])
  }

  function MessagesSinceLastRealUser(isReal: Item -> bool, s: seq<Item>): seq<Item> {
    Omitted(s[AfterLast(isReal, s)..])
  }

  /** Every item with the contents of results left out. */
  function WithoutContents(s: seq<Item>): (r: seq<Item>)
    ensures |r| == |s|
    ensures forall k | 0 <= k < |r| :: r[k] == if s[k].ToolResult? then ToolResult(s[k].id, "Tool call omitted...", []) else s[k]
  {
    seq(|s|, k requires 0 <= k < |s| => if s[k].ToolResult? then Placeholder(s[k]) else s[k])
  }

  function AssistantsAndResults(s: seq<Item>): set<nat> {
    set k: nat | k < |s| && (s[k].Assistant? || s[k].ToolResult?)
  }

  /** The tail consists of the assistants and results behind the last real user turn, in
      order, the results with a placeholder for their content. */
  lemma TailInOrder(isReal: Item -> bool, s: seq<Item>)
    ensures exists k: nat ::
              && k <= |s| && (k > 0 ==> isReal(s[k - 1])) && (forall j | k <= j < |s| :: !isReal(s[j]))
              && Selects(MessagesSinceLastRealUser(isReal, s), WithoutContents(s[k..]), AssistantsAndResults(s[k..]))
  {
    OmittedSelects(s[AfterLast(isReal, s)..]);
  }

  lemma {:induction false} OmittedSelects(s: seq<Item>)
    ensures Selects(Omitted(s), WithoutContents(s), AssistantsAndResults(s))
  {
    if s == [] {
      assert AssistantsAndResults(s) == {};
      SelectsNothing(WithoutContents(s));
    } else {
      OmittedSelects(s[1..]);
      OmittedStep(s);
    }
  }

  lemma OmittedStep(s: seq<Item>)
    requires s != [] && Selects(Omitted(s[1..]), WithoutContents(s[1..]), AssistantsAndResults(s[1..]))
    ensures Selects(Omitted(s), WithoutContents(s), AssistantsAndResults(s))
  {
    hide Selects;
    assert WithoutContents(s)[1..] == WithoutContents(s[1..]);
    SelectsCons(Omitted(s[1..]), WithoutContents(s), AssistantsAndResults(s[1..]), AssistantsAndResults(s));
  }

  /** A rule about runs that looks only at ids and implies pairing. */
  ghost predicate IdRule(p: RunTest) {
    && (forall c, r :: AllResults(r) && p(c, r) ==> RunPaired(c, r))
    && (forall c, r, r' :: AllResults(r) && AllResults(r') && SameIds(r, r') ==> (p(c, r) <==> p(c, r')))
    && p([], [])
  }

  predicate SameIds(a: seq<Item>, b: seq<Item>) {
    |a| == |b| && forall k | 0 <= k < |a| && a[k].ToolResult? && b[k].ToolResult? :: a[k].id == b[k].id
  }

  lemma {:induction false} SameIdsSameRule(a: seq<Item>, b: seq<Item>)
    requires AllResults(a) && AllResults(b) && SameIds(a, b)
    ensures ResultIds(a) == ResultIds(b) && (DistinctIds(a) <==> DistinctIds(b))
  {
    if a != [] {
      assert a[0].id == b[0].id;
      assert forall k | 0 <= k < |a| - 1 :: a[1..][k] == a[k + 1] && b[1..][k] == b[k + 1];
      SameIdsSameRule(a[1..], b[1..]);
    }
  }

  lemma PairingRulesAreIdRules()
    ensures IdRule(RunPaired) && IdRule(RunStrict)
  {
    forall r: seq<Item>, r': seq<Item> | AllResults(r) && AllResults(r') && SameIds(r, r')
      ensures ResultIds(r) == ResultIds(r') && (DistinctIds(r) <==> DistinctIds(r'))
    {
      SameIdsSameRule(r, r');
    }
  }

  lemma {:induction false} OmittedRun(run: seq<Item>, rest: seq<Item>)
    requires AllResults(run)
    ensures Omitted(run + rest) == Omitted(run) + Omitted(rest)
    ensures AllResults(Omitted(run)) && SameIds(run, Omitted(run))
  {
    if run == [] {
      assert run + rest == rest;
    } else {
      assert (run + rest)[1..] == run[1..] + rest;
      OmittedRun(run[1..], rest);
      assert forall k | 0 < k < |run| :: run[k] == run[1..][k - 1] && Omitted(run)[k] == Omitted(run[1..])[k - 1];
    }
  }

  /** Dropping the items between assistants never detaches a result from its owner:
      behind any other item a paired history has no result to detach. */
  lemma {:induction false} OmittedKeepsRule(p: RunTest, calls: seq<ToolCall>, s: seq<Item>)
    requires IdRule(p) && AllRuns(p, calls, s)
    ensures AllRuns(p, calls, Omitted(s))
    decreases |s|
  {
    var n := RunLen(s);
    var run := s[..n];
    OmittedRun(run, s[n..]);
    assert s == run + s[n..];
    if n == |s| {
      assert s[n..] == [];
      AllRunsStep(p, calls, Omitted(run), []);
    } else {
      var own, t := CallsOf(s[n]), Omitted(s[n + 1..]);
      assert s[n..][1..] == s[n + 1..];
      OmittedKeepsRule(p, own, s[n + 1..]);
      if s[n].Assistant? {
        AllRunsStep(p, calls, Omitted(run), [s[n]] + t);
        assert ([s[n]] + t)[1..] == t;
      } else {
        assert Omitted(s[n..]) == t;
        NoLeadingResult(p, t);
        AllRunsStep(p, calls, Omitted(run), t);
        AllRunsStep(p, [], [], t);
        assert [] + t == t;
      }
    }
  }

  lemma NoLeadingResult(p: RunTest, s: seq<Item>)
    requires IdRule(p) && AllRuns(p, [], s)
    ensures s == [] || !s[0].ToolResult?
  {
    var n := RunLen(s);
    assert RunPaired([], s[..n]);
  }

  /** Everything behind an item that is not a result obeys the rule on its own. */
  lemma {:induction false} SuffixObeys(p: RunTest, calls: seq<ToolCall>, s: seq<Item>, k: nat)
    requires AllRuns(p, calls, s) && k < |s| && !s[k].ToolResult?
    ensures AllRuns(p, CallsOf(s[k]), s[k + 1..])
    decreases |s|
  {
    var n := RunLen(s);
    assert forall j | 0 <= j < n :: s[j] == s[..n][j];
    if k > n {
      assert s[n + 1..][k - n - 1] == s[k] && s[n + 1..][k - n..] == s[k + 1..];
      SuffixObeys(p, CallsOf(s[n]), s[n + 1..], k - n - 1);
    }
  }

  /** The extracted tail of a paired (strict) conversation is paired (strict), however
      many synthetic user turns, system items or reasoning items it spans. */
  lemma {:induction false} TailKeepsRule(p: RunTest, isReal: Item -> bool, s: seq<Item>)
    requires IdRule(p) && AllRuns(p, [], s)
    requires forall x :: isReal(x) ==> x.User?
    ensures AllRuns(p, [], MessagesSinceLastRealUser(isReal, s))
  {
    var k := AfterLast(isReal, s);
    if k > 0 {
      SuffixObeys(p, [], s, k - 1);
    } else {
      assert s[0..] == s;
    }
    OmittedKeepsRule(p, [], s[k..]);
  }

  // ---------- The compacted history ----------

  datatype HistoryInput = HistoryInput(
    systemMessage: Item,
    userMessagePrefix: string,
    agentsMdReminder: Option<string>,
    lastUserQuery: Option<string>,
    recentMessages: seq<Item>,
    compactionSummary: string,
    systemReminder: Option<string>,
    transcriptHint: Option<string>)

  function UserText(text: string, reason: Option<SyntheticReason>): Item {
    User([Part.Text(text)], reason)
  }

  function OptionalItem(text: Option<string>, reason: Option<SyntheticReason>): seq<Item> {
    if text.None? then [] else [UserText(text.value, reason)]
  }

  const PREAMBLE := "This session is being continued from a previous conversation that ran out of context. The summary below covers the earlier portion of the conversation.\n\n"

  function SummaryItem(inp: HistoryInput): Item {
    UserText(PREAMBLE + CompactSummary.Format(inp.compactionSummary)
               + (if inp.transcriptHint.None? then "" else inp.transcriptHint.value),
             Some(CompactionMeta))
  }

  function WrapUserQuery(text: string): string {
    "<user_query>\n" + text + "\n</user_query>"
  }

  /** System and prefix, optional instructions and query, the recent messages, then the
      summary and the optional reminder. */
  function BuildCompactedHistory(inp: HistoryInput): seq<Item> {
    HistoryHead(inp) + inp.recentMessages + HistoryFoot(inp)
  }

  function HistoryHead(inp: HistoryInput): seq<Item> {
    [inp.systemMessage, UserText(inp.userMessagePrefix, Some(CompactionMeta))]
    + OptionalItem(inp.agentsMdReminder, Some(ProjectInstructions))
    + (if inp.lastUserQuery.None? then [] else [UserText(WrapUserQuery(inp.lastUserQuery.value), None)])
  }

  function HistoryFoot(inp: HistoryInput): seq<Item> {
    [SummaryItem(inp)] + OptionalItem(inp.systemReminder, Some(SystemReminder))
  }

  predicate AllUsers(s: seq<Item>) {
    s == [] || (s[0].User? && AllUsers(s[1..]))
  }

  /** User items in front of a history change nothing about its runs. */
  lemma {:induction false} UsersInFront(p: RunTest, calls: seq<ToolCall>, users: seq<Item>, s: seq<Item>)
    requires AllUsers(users) && users != [] && p([], [])
    ensures AllRuns(p, calls, users + s) <==> p(calls, []) && AllRuns(p, [], s)
    decreases |users|
  {
    assert users + s == [users[0]] + (users[1..] + s);
    AllRunsFront(p, calls, users[0], users[1..] + s);
    if users[1..] == [] {
      assert [] + s == s;
    } else {
      UsersInFront(p, [], users[1..], s);
    }
  }

  lemma {:induction false} OnlyUsers(p: RunTest, users: seq<Item>)
    requires AllUsers(users) && users != [] && p([], [])
    ensures AllRuns(p, [], users) && AllRuns(p, CallsOf(users[0]), users[1..])
  {
    var none: seq<Item> := [];
    AllRunsStep(p, [], none, none);
    assert none + none == none && none + users == users;
    if users[1..] != [] {
      OnlyUsers(p, users[1..]);
    }
    AllRunsStep(p, [], none, users);
  }

  /** User items behind a history change nothing either. */
  lemma {:induction false} UsersBehind(p: RunTest, calls: seq<ToolCall>, s: seq<Item>, users: seq<Item>)
    requires AllUsers(users) && users != [] && p([], [])
    ensures AllRuns(p, calls, s + users) <==> AllRuns(p, calls, s)
    decreases |s|
  {
    var n := RunLen(s);
    SplitAt(s, n);
    Associate(s[..n], s[n..], users);
    if n < |s| {
      DropAppend(s[n..], users, 1);
      DropDrop(s, n, 1);
      UsersBehind(p, CallsOf(s[n]), s[n + 1..], users);
    }
    UsersBehindRun(p, calls, s[..n], s[n..], users);
  }

  lemma UsersBehindRun(p: RunTest, calls: seq<ToolCall>, run: seq<Item>, rest: seq<Item>, users: seq<Item>)
    requires AllUsers(users) && users != [] && p([], [])
    requires AllResults(run) && (rest == [] || !rest[0].ToolResult?)
    requires rest == [] || (AllRuns(p, CallsOf(rest[0]), (rest + users)[1..]) <==> AllRuns(p, CallsOf(rest[0]), rest[1..]))
    ensures AllRuns(p, calls, run + (rest + users)) <==> AllRuns(p, calls, run + rest)
  {
    AllRunsStep(p, calls, run, rest);
    AllRunsStep(p, calls, run, rest + users);
    if rest == [] {
      assert rest + users == users;
      OnlyUsers(p, users);
    }
  }

  lemma {:induction false} AllUsersConcat(a: seq<Item>, b: seq<Item>)
    requires AllUsers(a) && AllUsers(b)
    ensures AllUsers(a + b)
  {
    if a == [] {
      assert a + b == b;
    } else {
      assert (a + b)[1..] == a[1..] + b;
      AllUsersConcat(a[1..], b);
    }
  }

  lemma HeadAndFootAreUsers(inp: HistoryInput)
    ensures AllUsers(HistoryHead(inp)[1..]) && HistoryHead(inp)[1..] != []
    ensures AllUsers(HistoryFoot(inp))
  {
    var prefix := [UserText(inp.userMessagePrefix, Some(CompactionMeta))];
    var agents := OptionalItem(inp.agentsMdReminder, Some(ProjectInstructions));
    var query: seq<Item> := if inp.lastUserQuery.None? then [] else [UserText(WrapUserQuery(inp.lastUserQuery.value), None)];
    AllUsersConcat(prefix, agents);
    AllUsersConcat(prefix + agents, query);
    assert HistoryHead(inp)[1..] == prefix + agents + query;
    AllUsersConcat([SummaryItem(inp)], OptionalItem(inp.systemReminder, Some(SystemReminder)));
  }

  /** A compacted history built on recent messages that obey the pairing rule obeys it,
      if and only if the system message neither is a result nor declares calls of its own. */
  lemma BuiltObeysIff(inp: HistoryInput)
    requires Strict(inp.recentMessages)
    ensures Strict(BuildCompactedHistory(inp)) <==>
            !inp.systemMessage.ToolResult? && CallsOf(inp.systemMessage) == []
  {
    HeadAndFootAreUsers(inp);
    BuiltSplits(inp);
    FramedObeysIff(inp.systemMessage, HistoryHead(inp)[1..], inp.recentMessages, HistoryFoot(inp));
  }

  lemma BuiltSplits(inp: HistoryInput)
    ensures BuildCompactedHistory(inp) ==
            [inp.systemMessage] + (HistoryHead(inp)[1..] + (inp.recentMessages + HistoryFoot(inp)))
  {
    var head, tail := HistoryHead(inp), inp.recentMessages + HistoryFoot(inp);
    assert head == [inp.systemMessage] + head[1..];
    Associate([inp.systemMessage], head[1..], tail);
    Associate(head, inp.recentMessages, HistoryFoot(inp));
  }

  lemma FramedObeysIff(sys: Item, users: seq<Item>, recent: seq<Item>, foot: seq<Item>)
    requires Strict(recent) && AllUsers(users) && users != [] && AllUsers(foot) && foot != []
    ensures Strict([sys] + (users + (recent + foot))) <==> !sys.ToolResult? && CallsOf(sys) == []
  {
    UsersBehind(RunStrict, [], recent, foot);
    UsersInFront(RunStrict, CallsOf(sys), users, recent + foot);
    StrictFrontIff(sys, users + (recent + foot));
    if CallsOf(sys) != [] { assert CallsOf(sys)[0].id in CallIds(CallsOf(sys)); }
  }

  lemma StrictFrontIff(sys: Item, tail: seq<Item>)
    requires tail != [] && !tail[0].ToolResult?
    ensures Strict([sys] + tail) <==>
            !sys.ToolResult? && RunStrict([], []) && AllRuns(RunStrict, CallsOf(sys), tail)
  {
    if sys.ToolResult? {
      AllRunsStep(RunStrict, [], [sys], tail);
      assert ResultIds([sys]) == {sys.id};
    } else {
      AllRunsFront(RunStrict, [], sys, tail);
    }
  }

  /** Where everything stands: the system message and the prefix, then the instructions and
      the last query if there are any, the recent messages, the summary with the hint, and
      a reminder if there is one. */
  lemma BuiltInOrder(inp: HistoryInput)
    ensures var out, n := BuildCompactedHistory(inp), |inp.recentMessages|;
            var a, q := if inp.agentsMdReminder.Some? then 1 else 0, if inp.lastUserQuery.Some? then 1 else 0;
            var recent := 2 + a + q;
            && |out| == recent + n + 1 + (if inp.systemReminder.Some? then 1 else 0)
            && out[0] == inp.systemMessage
            && out[1] == User([Part.Text(inp.userMessagePrefix)], Some(CompactionMeta))
            && (a == 1 ==> out[2] == User([Part.Text(inp.agentsMdReminder.value)], Some(ProjectInstructions)))
            && (q == 1 ==> out[recent - 1] == User([Part.Text("<user_query>\n" + inp.lastUserQuery.value + "\n</user_query>")], None))
            && out[recent..recent + n] == inp.recentMessages
            && out[recent + n] ==
               User([Part.Text(PREAMBLE + CompactSummary.Format(inp.compactionSummary)
                                 + (if inp.transcriptHint.Some? then inp.transcriptHint.value else ""))], Some(CompactionMeta))
            && (inp.systemReminder.Some? ==> out[|out| - 1] == User([Part.Text(inp.systemReminder.value)], Some(SystemReminder)))
  {
    var head, foot := HistoryHead(inp), HistoryFoot(inp);
    HeadInOrder(inp);
    assert BuildCompactedHistory(inp)[|head|..|head| + |inp.recentMessages|] == inp.recentMessages;
    assert forall k | 0 <= k < |head| :: BuildCompactedHistory(inp)[k] == head[k];
    assert forall k | 0 <= k < |foot| :: BuildCompactedHistory(inp)[|head| + |inp.recentMessages| + k] == foot[k];
  }

  lemma HeadInOrder(inp: HistoryInput)
    ensures var head := HistoryHead(inp);
            var a, q := if inp.agentsMdReminder.Some? then 1 else 0, if inp.lastUserQuery.Some? then 1 else 0;
            && |head| == 2 + a + q
            && head[0] == inp.systemMessage
            && head[1] == User([Part.Text(inp.userMessagePrefix)], Some(CompactionMeta))
            && (a == 1 ==> head[2] == User([Part.Text(inp.agentsMdReminder.value)], Some(ProjectInstructions)))
            && (q == 1 ==> head[1 + a + q] == User([Part.Text("<user_query>\n" + inp.lastUserQuery.value + "\n</user_query>")], None))
  {
  }

  /** From a strict conversation to its compacted history: the sanitizer finds nothing
      to strip and leaves it unchanged. */
  lemma CompactedNeedsNoSanitizing(isReal: Item -> bool, s: seq<Item>, inp: HistoryInput)
    requires Strict(s) && (forall x :: isReal(x) ==> x.User?)
    requires inp.recentMessages == MessagesSinceLastRealUser(isReal, s)
    requires inp.systemMessage.System?
    ensures Strict(BuildCompactedHistory(inp))
    ensures Orphans({}, BuildCompactedHistory(inp)) == []
    ensures WithoutOrphans({}, BuildCompactedHistory(inp)) == BuildCompactedHistory(inp)
  {
    PairingRulesAreIdRules();
    TailKeepsRule(RunStrict, isReal, s);
    BuiltObeysIff(inp);
    var out := BuildCompactedHistory(inp);
    AllRunsWeaken(RunStrict, RunPaired, [], out);
    PairedHasNoOrphans([], {}, out);
    SanitizedIsValid({}, out);
  }
}
