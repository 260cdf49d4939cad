/** `fit_conversation_to_budget`: shrink a conversation to a token budget by keeping its
newest part, without ever tearing a result from its owner.  The token estimate of an
item is an arbitrary function. */
module FitBudget {
  import opened Conversation
  import opened Sequences
  import Compaction
  import TruncateText

  type Cost = Item -> nat

  function Total(cost: Cost, s: seq<Item>): nat {
    if s == [] then 0 else cost(s[0]) + Total(cost, s[1..])
  }

  lemma {:induction false} TotalConcat(cost: Cost, a: seq<Item>, b: seq<Item>)
    ensures Total(cost, a + b) == Total(cost, a) + Total(cost, b)
  {
    if a == [] {
      assert a + b == b;
    } else {
      assert (a + b)[1..] == a[1..] + b;
      TotalConcat(cost, a[1..], b);
    }
  }

  // ---------- Truncating one item ----------

  function TruncateParts(parts: seq<Part>, maxBytes: nat): seq<Part> {
    if parts == [] then []
    else [if parts[0].Text? then Part.Text(TruncateText.Shorten(parts[0].text, maxBytes)) else parts[0]]
         + TruncateParts(parts[1..], maxBytes)
  }

  /** Four bytes per token; only the text changes. */
  function TruncateItem(x: Item, maxTokens: nat): (y: Item)
    ensures y.ToolResult? <==> x.ToolResult?
    ensures x.ToolResult? ==> y.id == x.id && y.images == x.images
    ensures CallsOf(y) == CallsOf(x)
  {
    match x
    case ToolResult(id, content, images) => ToolResult(id, TruncateText.Shorten(content, 4 * maxTokens), images)
    case Assistant(content, calls) => Assistant(TruncateText.Shorten(content, 4 * maxTokens), calls)
    case User(parts, synthetic) => User(TruncateParts(parts, 4 * maxTokens), synthetic)
    case _ => x
  }

  function TruncateAll(run: seq<Item>, maxTokens: nat): (r: seq<Item>)
    ensures |r| == |run| && forall k | 0 <= k < |run| :: r[k] == TruncateItem(run[k], maxTokens)
  {
    if run == [] then [] else [TruncateItem(run[0], maxTokens)] + TruncateAll(run[1..], maxTokens)
  }

  // ---------- What is kept ----------

  /** Start of the longest suffix that costs at most `budget`. */
  function SuffixStart(cost: Cost, s: seq<Item>, budget: nat): (k: nat)
    ensures k <= |s|
  {
    if s == [] || cost(s[|s| - 1]) > budget then |s|
    else SuffixStart(cost, s[..|s| - 1], budget - cost(s[|s| - 1]))
  }

  /** Number of tool results at the end of `s`. */
  function TrailingResults(s: seq<Item>): (n: nat)
    ensures n <= |s|
  {
    if s == [] || !s[|s| - 1].ToolResult? then 0 else 1 + TrailingResults(s[..|s| - 1])
  }

  lemma {:induction false} TrailingIsARun(s: seq<Item>)
    ensures var n := TrailingResults(s);
            AllResults(s[|s| - n..]) && (n < |s| ==> !s[|s| - n - 1].ToolResult?)
  {
    if s != [] && s[|s| - 1].ToolResult? {
      var t := s[..|s| - 1];
      TrailingIsARun(t);
      var m := TrailingResults(t);
      DropSnoc(s, |t| - m);
    }
  }

  function OwnerOf(front: seq<Item>): seq<Item> {
    if front != [] && CallsOf(front[|front| - 1]) != [] then [front[|front| - 1]] else []
  }

  /** What each of `n` results may cost, at least one token. */
  function Share(budget: nat, ownerCost: nat, n: nat): nat
    requires n > 0
  {
    var share := (if budget > ownerCost then budget - ownerCost else 0) / n;
    if share < 1 then 1 else share
  }

  /** A run with its owner, the results sharing what the owner leaves of the budget. */
  function CutUnit(cost: Cost, owner: seq<Item>, results: seq<Item>, budget: nat): seq<Item>
    requires results != []
  {
    owner + TruncateAll(results, Share(budget, Total(cost, owner), |results|))
  }

  /** The newest unit, cut to the budget: the last item, or the last run with its owner. */
  function Recover(cost: Cost, body: seq<Item>, budget: nat): seq<Item> {
    var n := TrailingResults(body);
    if body == [] then []
    else if n == 0 then [TruncateItem(body[|body| - 1], budget)]
    else CutUnit(cost, OwnerOf(body[..|body| - n]), body[|body| - n..], budget)
  }

  function HeadOf(s: seq<Item>): seq<Item> {
    if s != [] && s[0].System? then [s[0]] else []
  }

  function Budget(cost: Cost, s: seq<Item>, maxTokens: nat): nat {
    var h := Total(cost, HeadOf(s));
    if maxTokens > h then maxTokens - h else 0
  }

  /** Start of the kept part of the body: the longest affordable suffix minus leading results. */
  function KeptFrom(cost: Cost, body: seq<Item>, budget: nat): (k: nat)
    ensures k <= |body| && (k < |body| ==> !body[k].ToolResult?)
  {
    var a := SuffixStart(cost, body, budget);
    var n := RunLen(body[a..]);
    assert n < |body[a..]| ==> body[a..][n] == body[a + n];
    a + n
  }

  function Fit(cost: Cost, s: seq<Item>, maxTokens: nat): seq<Item> {
    if Total(cost, s) <= maxTokens then s
    else
      HeadOf(s) + FitBody(cost, s[|HeadOf(s)|..], Budget(cost, s, maxTokens))
  }

  function FitBody(cost: Cost, body: seq<Item>, budget: nat): seq<Item> {
    var k := KeptFrom(cost, body, budget);
    if k < |body| then body[k..] else Recover(cost, body, budget)
  }

  // ---------- The source's loops ----------

  method SumCosts(cost: Cost, s: seq<Item>) returns (total: nat)
    ensures total == Total(cost, s)
  {
    total := 0;
    assert s[..0] == [];
    for i := 0 to |s|
      invariant total == Total(cost, s[..i])
    {
      assert s[..i + 1] == s[..i] + [s[i]];
      TotalConcat(cost, s[..i], [s[i]]);
      assert Total(cost, [s[i]]) == cost(s[i]);
      total := total + cost(s[i]);
    }
    assert s[..|s|] == s;
  }

  /** Walk backwards while items are affordable, then step over leading results. */
  method FindStart(cost: Cost, body: seq<Item>, budget: nat) returns (start: nat)
    ensures start == KeptFrom(cost, body, budget)
  {
    start := WalkBack(cost, body, budget);
    start := StepOverResults(body, start);
  }

  method WalkBack(cost: Cost, body: seq<Item>, budget: nat) returns (start: nat)
    ensures start == SuffixStart(cost, body, budget)
  {
    var remaining: nat := budget;
    start := |body|;
    assert body[..|body|] == body;
    while start > 0 && cost(body[start - 1]) <= remaining
      invariant start <= |body| && remaining >= 0
      invariant SuffixStart(cost, body[..start], remaining) == SuffixStart(cost, body, budget)
    {
      assert body[..start][..start - 1] == body[..start - 1];
      remaining := remaining - cost(body[start - 1]);
      start := start - 1;
    }
  }

  method StepOverResults(body: seq<Item>, from: nat) returns (start: nat)
    requires from <= |body|
    ensures start == from + RunLen(body[from..])
  {
    start := from;
    while start < |body| && body[start].ToolResult?
      invariant from <= start <= |body|
      invariant RunLen(body[from..]) == (start - from) + RunLen(body[start..])
    {
      DropDrop(body, start, 1);
      start := start + 1;
    }
  }

  /** Pop the trailing results. */
  method PopResults(body: seq<Item>) returns (front: seq<Item>, results: seq<Item>)
    ensures front + results == body && |results| == TrailingResults(body)
  {
    var k := |body|;
    assert body[..k] == body;
    while k > 0 && body[k - 1].ToolResult?
      invariant k <= |body|
      invariant TrailingResults(body) == TrailingResults(body[..k]) + (|body| - k)
    {
      assert body[..k][..k - 1] == body[..k - 1];
      k := k - 1;
    }
    front, results := body[..k], body[k..];
  }

  lemma SplitsAt<T>(front: seq<T>, back: seq<T>, s: seq<T>)
    requires front + back == s
    ensures front == s[..|s| - |back|] && back == s[|s| - |back|..]
  {
  }

  method RecoverTruncatedTailUnit(cost: Cost, body: seq<Item>, budget: nat) returns (unit: seq<Item>)
    ensures unit == Recover(cost, body, budget)
  {
    var front, results := PopResults(body);
    SplitsAt(front, results, body);
    if body == [] { return []; }
    if results == [] {
      return [TruncateItem(body[|body| - 1], budget)];
    }
    var owner: seq<Item> := [];
    if front != [] && CallsOf(front[|front| - 1]) != [] {
      owner := [front[|front| - 1]];
    }
    var ownerCost := SumCosts(cost, owner);
    unit := owner + TruncateAll(results, Share(budget, ownerCost, |results|));
  }

  method FitConversationToBudget(cost: Cost, conversation: seq<Item>, maxTokens: nat) returns (out: seq<Item>)
    ensures out == Fit(cost, conversation, maxTokens)
  {
    var total := SumCosts(cost, conversation);
    if total <= maxTokens { return conversation; }
    var head := HeadOf(conversation);
    var body := conversation[|head|..];
    var headCost := SumCosts(cost, head);
    var budget := if maxTokens > headCost then maxTokens - headCost else 0;
    var start := FindStart(cost, body, budget);
    if start < |body| {
      return head + body[start..];
    }
    var unit := RecoverTruncatedTailUnit(cost, body, budget);
    return head + unit;
  }

  // ---------- Main results ----------

  lemma TotalSnoc(cost: Cost, s: seq<Item>, k: nat)
    requires k < |s|
    ensures Total(cost, s[k..]) == Total(cost, s[..|s| - 1][k..]) + cost(s[|s| - 1])
  {
    var last, t := s[|s| - 1], s[..|s| - 1];
    assert s[k..] == t[k..] + [last];
    TotalConcat(cost, t[k..], [last]);
    assert Total(cost, [last]) == cost(last);
  }

  /** A suffix is affordable if and only if it starts at or behind `SuffixStart`. */
  lemma {:induction false} SuffixIsLongest(cost: Cost, s: seq<Item>, budget: nat, k: nat)
    requires k <= |s|
    ensures Total(cost, s[k..]) <= budget <==> SuffixStart(cost, s, budget) <= k
  {
    if k == |s| {
      assert s[k..] == [];
    } else {
      TotalSnoc(cost, s, k);
      if cost(s[|s| - 1]) <= budget {
        SuffixIsLongest(cost, s[..|s| - 1], budget - cost(s[|s| - 1]), k);
      }
    }
  }

  /** Of the affordable suffixes that do not start with a result, the kept one is the longest. */
  lemma KeptIsLongest(cost: Cost, body: seq<Item>, budget: nat, j: nat)
    requires j <= |body|
    ensures var k := KeptFrom(cost, body, budget);
            && Total(cost, body[k..]) <= budget
            && (j < k ==> body[j].ToolResult? || Total(cost, body[j..]) > budget)
  {
    var a, k := SuffixStart(cost, body, budget), KeptFrom(cost, body, budget);
    SuffixIsLongest(cost, body, budget, k);
    SuffixIsLongest(cost, body, budget, j);
    if a <= j < k {
      var run := body[a..][..k - a];
      assert AllResults(run) && run[j - a] == body[j];
    }
  }

  /** Of an over-budget conversation whose newest items fit, exactly the system head and
      the longest affordable suffix, minus leading results, survive; the whole is within
      the limit if and only if the system head is. */
  lemma {:induction false} FitKeepsLongestSuffix(cost: Cost, s: seq<Item>, body: seq<Item>, budget: nat, maxTokens: nat, j: nat)
    requires Total(cost, s) > maxTokens
    requires body == s[|HeadOf(s)|..] && budget == Budget(cost, s, maxTokens)
    requires KeptFrom(cost, body, budget) < |body|
    ensures var k := KeptFrom(cost, body, budget);
            && Fit(cost, s, maxTokens) == HeadOf(s) + body[k..]
            && Total(cost, body[k..]) <= budget
            && (j < k ==> body[j].ToolResult? || Total(cost, body[j..]) > budget)
    ensures Total(cost, Fit(cost, s, maxTokens)) <= maxTokens <==> Total(cost, HeadOf(s)) <= maxTokens
  {
    KeptIsLongest(cost, body, budget, if j < |body| then j else 0);
    TotalConcat(cost, HeadOf(s), body[KeptFrom(cost, body, budget)..]);
  }

  // ---------- The whole of it, case by case ----------

  /** Keeping the body from `j` on is possible: it is affordable and starts with no result. */
  predicate CanStart(cost: Cost, body: seq<Item>, left: nat, j: nat) {
    j < |body| && !body[j].ToolResult? && Total(cost, body[j..]) <= left
  }

  /** What each of `n` results gets of `left` tokens: an equal whole share, at least one. */
  predicate FairShare(n: nat, left: nat, per: nat) {
    per >= 1 && (per == 1 || n * per <= left) && left < n * (per + 1)
  }

  lemma ShareIsFair(budget: nat, ownerCost: nat, n: nat)
    requires n > 0
    ensures FairShare(n, if budget > ownerCost then budget - ownerCost else 0, Share(budget, ownerCost, n))
  {
    var left := if budget > ownerCost then budget - ownerCost else 0;
    Quotient(left, n);
  }

  lemma Quotient(left: nat, n: nat)
    requires n > 0
    ensures n * (left / n) <= left < n * (left / n + 1)
    ensures left / n < 1 ==> left < n * 2
  {
    var q := left / n;
    assert left == n * q + left % n && n * (q + 1) == n * q + n;
  }

  /** `body` ends with exactly `n` results. */
  predicate EndsWithResults(body: seq<Item>, n: nat) {
    && n <= |body|
    && (forall i | |body| - n <= i < |body| :: body[i].ToolResult?)
    && (n < |body| ==> !body[|body| - n - 1].ToolResult?)
  }

  /** The item before the last `n` results, if it declares calls. */
  function RunOwner(body: seq<Item>, n: nat): seq<Item>
    requires n <= |body|
  {
    if 0 < n < |body| && CallsOf(body[|body| - n - 1]) != [] then [body[|body| - n - 1]] else []
  }

  /** `per` is what each item of the newest unit gets: all that is `left` if that is a single
      item, and if it is `n` results a fair share of what their owner leaves of it. */
  predicate IsLimit(cost: Cost, body: seq<Item>, left: nat, n: nat, per: nat) {
    EndsWithResults(body, n) &&
    if n == 0 then per == left
    else
      var spent := Total(cost, RunOwner(body, n));
      FairShare(n, if left > spent then left - spent else 0, per)
  }

  predicate AllCut(items: seq<Item>, per: nat, cut: seq<Item>) {
    |cut| == |items| && forall i | 0 <= i < |cut| :: cut[i] == TruncateItem(items[i], per)
  }

  /** The newest unit of `body`, cut down to `left` tokens: the last item alone, or the `n`
      trailing results behind their owner. */
  predicate CutDown(cost: Cost, body: seq<Item>, left: nat, unit: seq<Item>, n: nat, per: nat)
    requires body != []
  {
    && IsLimit(cost, body, left, n, per)
    && RunOwner(body, n) <= unit
    && AllCut(body[|body| - (if n == 0 then 1 else n)..], per, unit[|RunOwner(body, n)|..])
  }

  lemma TrailingEnds(body: seq<Item>)
    ensures EndsWithResults(body, TrailingResults(body))
  {
    TrailingIsARun(body);
    var k := |body| - TrailingResults(body);
    forall i | k <= i < |body| ensures body[i].ToolResult? {
      assert body[i] == body[k..][i - k];
    }
  }

  lemma RecoverMeans(cost: Cost, body: seq<Item>, left: nat) returns (n: nat, per: nat)
    requires body != []
    ensures CutDown(cost, body, left, Recover(cost, body, left), n, per)
  {
    n, per := TrailingResults(body), left;
    TrailingEnds(body);
    if n == 0 {
      assert body[|body| - 1..] == [body[|body| - 1]];
    } else {
      per := CutUnitMeans(cost, body, left, n);
    }
  }

  lemma {:induction false} CutUnitMeans(cost: Cost, body: seq<Item>, left: nat, n: nat) returns (per: nat)
    requires 0 < n <= |body| && EndsWithResults(body, n)
    ensures CutDown(cost, body, left, CutUnit(cost, OwnerOf(body[..|body| - n]), body[|body| - n..], left), n, per)
  {
    hide FairShare, Share, Total, TruncateItem, OwnerOf, RunOwner, EndsWithResults;
    var owner, results := RunOwner(body, n), body[|body| - n..];
    OwnersAgree(body, n);
    per := Share(left, Total(cost, owner), n);
    ShareIsFair(left, Total(cost, owner), n);
    AppendDrop(owner, TruncateAll(results, per), 0);
  }

  lemma OwnersAgree(body: seq<Item>, n: nat)
    requires 0 < n <= |body|
    ensures OwnerOf(body[..|body| - n]) == RunOwner(body, n)
  {
    BeforeTheRun(body, n);
  }

  /** What fitting leaves, for every conversation: all of it if it is within the limit;
      else the system head, and behind it the longest part of the rest that the head leaves
      tokens for and that starts with no result; or if there is none, the newest unit, cut
      down to those tokens. */
  ghost predicate Fitted(cost: Cost, s: seq<Item>, maxTokens: nat, out: seq<Item>, k: nat, n: nat, per: nat) {
    var h := if s != [] && s[0].System? then 1 else 0;
    var spent := Total(cost, s[..h]);
    if Total(cost, s) <= maxTokens then out == s
    else s[..h] <= out && BodyFitted(cost, s[h..], if maxTokens > spent then maxTokens - spent else 0, out[h..], k, n, per)
  }

  ghost predicate BodyFitted(cost: Cost, body: seq<Item>, left: nat, out: seq<Item>, k: nat, n: nat, per: nat) {
    && k <= |body| && (forall j | 0 <= j < k :: !CanStart(cost, body, left, j))
    && if k < |body| then CanStart(cost, body, left, k) && out == body[k..]
       else if body == [] then out == []
       else CutDown(cost, body, left, out, n, per)
  }

  lemma BodyFits(cost: Cost, body: seq<Item>, left: nat) returns (k: nat, n: nat, per: nat)
    ensures BodyFitted(cost, body, left, FitBody(cost, body, left), k, n, per)
  {
    k, n, per := KeptFrom(cost, body, left), 0, 1;
    forall j | 0 <= j < k ensures !CanStart(cost, body, left, j) {
      KeptIsLongest(cost, body, left, j);
    }
    KeptIsLongest(cost, body, left, k);
    if body != [] {
      n, per := RecoverMeans(cost, body, left);
    }
  }

  lemma FitMeans(cost: Cost, s: seq<Item>, maxTokens: nat) returns (k: nat, n: nat, per: nat)
    ensures Fitted(cost, s, maxTokens, Fit(cost, s, maxTokens), k, n, per)
  {
    hide BodyFitted, FitBody, Total;
    var head, left := HeadOf(s), Budget(cost, s, maxTokens);
    var h := |head|;
    assert head == s[..h];
    k, n, per := BodyFits(cost, s[h..], left);
    AppendDrop(head, FitBody(cost, s[h..], left), 0);
  }

  /** `s` ends with `x`, or with `x` cut to `limit` tokens. */
  predicate EndsWithCut(s: seq<Item>, x: Item, limit: nat) {
    s != [] && (s[|s| - 1] == x || s[|s| - 1] == TruncateItem(x, limit))
  }

  /** Whatever the budget, the newest item survives, at worst with its text cut to what the
      system head leaves, or to the fair share of that. */
  lemma FitKeepsLastItem(cost: Cost, s: seq<Item>, maxTokens: nat) returns (n: nat, limit: nat)
    requires s != []
    ensures EndsWithCut(Fit(cost, s, maxTokens), s[|s| - 1], limit)
    ensures var h := if s[0].System? then 1 else 0;
            var spent := Total(cost, s[..h]);
            |s| > h && Total(cost, s) > maxTokens ==>
              IsLimit(cost, s[h..], if maxTokens > spent then maxTokens - spent else 0, n, limit)
  {
    hide Total, FitBody, EndsWithCut;
    n, limit := 0, 0;
    var head, left := HeadOf(s), Budget(cost, s, maxTokens);
    assert head == s[..|head|];
    if Total(cost, s) <= maxTokens {
      EndsWithItself(s, limit);
    } else if |s| == |head| {
      assert s[|head|..] == [] && FitBody(cost, [], left) == [] by { NothingToFit(cost, left); }
      assert head == s && s + [] == s;
      EndsWithItself(s, limit);
    } else {
      n, limit := BodyKeepsLast(cost, s[|head|..], left);
      EndsBehind(head, FitBody(cost, s[|head|..], left), s[|s| - 1], limit);
    }
  }

  lemma EndsWithItself(s: seq<Item>, limit: nat)
    requires s != []
    ensures EndsWithCut(s, s[|s| - 1], limit)
  {
  }

  lemma NothingToFit(cost: Cost, left: nat)
    ensures FitBody(cost, [], left) == []
  {
  }

  lemma EndsBehind(head: seq<Item>, s: seq<Item>, x: Item, limit: nat)
    requires EndsWithCut(s, x, limit)
    ensures EndsWithCut(head + s, x, limit)
  {
  }

  lemma BodyKeepsLast(cost: Cost, body: seq<Item>, left: nat) returns (n: nat, limit: nat)
    requires body != []
    ensures EndsWithCut(FitBody(cost, body, left), body[|body| - 1], limit) && IsLimit(cost, body, left, n, limit)
  {
    n, limit := RecoverMeans(cost, body, left);
    var k, n', per := BodyFits(cost, body, left);
    if k < |body| {
      assert body[k..][|body[k..]| - 1] == body[|body| - 1];
    } else {
      n, limit := n', per;
      CutDownEnds(cost, body, left, FitBody(cost, body, left), n, limit);
    }
  }

  lemma CutDownEnds(cost: Cost, body: seq<Item>, left: nat, unit: seq<Item>, n: nat, per: nat)
    requires body != [] && CutDown(cost, body, left, unit, n, per)
    ensures EndsWithCut(unit, body[|body| - 1], per)
  {
    hide Total;
    var cut, items := unit[|RunOwner(body, n)|..], body[|body| - (if n == 0 then 1 else n)..];
    assert cut[|cut| - 1] == unit[|unit| - 1] && items[|items| - 1] == body[|body| - 1];
  }

  // ---------- What an item loses ----------

  /** The texts of an item, in order. */
  function TextsOf(x: Item): seq<string> {
    match x
    case ToolResult(_, content, _) => [content]
    case Assistant(content, _) => [content]
    case User(parts, _) => TextsIn(parts)
    case _ => []
  }

  function TextsIn(parts: seq<Part>): seq<string> {
    if parts == [] then [] else (if parts[0].Text? then [parts[0].text] else []) + TextsIn(parts[1..])
  }

  /** The item without these texts. */
  function WithoutTexts(x: Item): Item {
    match x
    case ToolResult(id, _, images) => ToolResult(id, "", images)
    case Assistant(_, calls) => Assistant("", calls)
    case User(parts, synthetic) => User(PartsWithoutTexts(parts), synthetic)
    case _ => x
  }

  function PartsWithoutTexts(parts: seq<Part>): (r: seq<Part>)
    ensures |r| == |parts| && forall i | 0 <= i < |r| :: r[i] == if parts[i].Text? then Part.Text("") else parts[i]
  {
    seq(|parts|, i requires 0 <= i < |parts| => if parts[i].Text? then Part.Text("") else parts[i])
  }

  /** A text within the limit stays, any other is cut to it. */
  ghost predicate Shortened(s: string, maxBytes: nat, t: string) {
    if TruncateText.ByteLen(s) <= maxBytes then t == s else TruncateText.CutTo(s, maxBytes, t)
  }

  ghost predicate AllShortened(a: seq<string>, maxBytes: nat, b: seq<string>) {
    |a| == |b| && forall i | 0 <= i < |a| :: Shortened(a[i], maxBytes, b[i])
  }

  /** Every text of a truncated item is shortened to four bytes a token, each on its own,
      and nothing else changes. */
  lemma TruncatesTextsOnly(x: Item, maxTokens: nat)
    ensures WithoutTexts(TruncateItem(x, maxTokens)) == WithoutTexts(x)
    ensures AllShortened(TextsOf(x), 4 * maxTokens, TextsOf(TruncateItem(x, maxTokens)))
  {
    match x
    case ToolResult(_, content, _) => TruncateText.ShortenMeans(content, 4 * maxTokens);
    case Assistant(content, _) => TruncateText.ShortenMeans(content, 4 * maxTokens);
    case User(parts, _) => PartsShortened(parts, 4 * maxTokens);
    case _ =>
  }

  lemma {:induction false} PartsShortened(parts: seq<Part>, maxBytes: nat)
    ensures PartsWithoutTexts(TruncateParts(parts, maxBytes)) == PartsWithoutTexts(parts)
    ensures AllShortened(TextsIn(parts), maxBytes, TextsIn(TruncateParts(parts, maxBytes)))
  {
    if parts != [] {
      var t, rest := TruncateParts(parts, maxBytes), TruncateParts(parts[1..], maxBytes);
      PartsShortened(parts[1..], maxBytes);
      assert t[1..] == rest;
      assert PartsWithoutTexts(t) == [PartsWithoutTexts(t)[0]] + PartsWithoutTexts(rest);
      assert PartsWithoutTexts(parts) == [PartsWithoutTexts(parts)[0]] + PartsWithoutTexts(parts[1..]);
      if parts[0].Text? {
        TruncateText.ShortenMeans(parts[0].text, maxBytes);
      }
      ShortenedCons(if parts[0].Text? then [parts[0].text] else [], TextsIn(parts[1..]), maxBytes,
                    if t[0].Text? then [t[0].text] else [], TextsIn(rest));
    }
  }

  lemma ShortenedCons(a: seq<string>, b: seq<string>, maxBytes: nat, c: seq<string>, d: seq<string>)
    requires AllShortened(a, maxBytes, c) && AllShortened(b, maxBytes, d)
    ensures AllShortened(a + b, maxBytes, c + d)
  {
    hide Shortened;
  }

  /** Fitting keeps the pairing rule: a paired conversation stays paired, a strict one strict. */
  lemma FitObeys(p: RunTest, cost: Cost, s: seq<Item>, maxTokens: nat)
    requires Compaction.IdRule(p) && AllRuns(p, [], s)
    ensures AllRuns(p, [], Fit(cost, s, maxTokens))
  {
    if Total(cost, s) > maxTokens {
      var body, budget := s[|HeadOf(s)|..], Budget(cost, s, maxTokens);
      BehindTheHead(p, s);
      BodyObeys(p, cost, body, budget);
      HeadInFront(p, HeadOf(s), FitBody(cost, body, budget));
    }
  }

  lemma BehindTheHead(p: RunTest, s: seq<Item>)
    requires Compaction.IdRule(p) && AllRuns(p, [], s)
    ensures AllRuns(p, [], s[|HeadOf(s)|..])
  {
    if HeadOf(s) != [] {
      Compaction.SuffixObeys(p, [], s, 0);
    } else {
      assert s[0..] == s;
    }
  }

  lemma BodyObeys(p: RunTest, cost: Cost, body: seq<Item>, budget: nat)
    requires Compaction.IdRule(p) && AllRuns(p, [], body)
    ensures AllRuns(p, [], FitBody(cost, body, budget))
  {
    var k := KeptFrom(cost, body, budget);
    if k < |body| {
      PartObeys(p, body, k);
    } else {
      RecoverObeys(p, cost, body, budget);
    }
  }

  lemma FitPreservesStrict(cost: Cost, s: seq<Item>, maxTokens: nat)
    ensures Strict(s) ==> Strict(Fit(cost, s, maxTokens))
    ensures Paired(s) ==> Paired(Fit(cost, s, maxTokens))
  {
    Compaction.PairingRulesAreIdRules();
    if Strict(s) { FitObeys(RunStrict, cost, s, maxTokens); }
    if Paired(s) { FitObeys(RunPaired, cost, s, maxTokens); }
  }

  /** A part that starts at an item that is not a result obeys the rule. */
  lemma {:induction false} PartObeys(p: RunTest, s: seq<Item>, k: nat)
    requires Compaction.IdRule(p) && AllRuns(p, [], s) && k < |s| && !s[k].ToolResult?
    ensures AllRuns(p, [], s[k..])
  {
    Compaction.SuffixObeys(p, [], s, k);
    AllRunsStep(p, [], [], s[k..]);
    assert [] + s[k..] == s[k..] && s[k..][1..] == s[k + 1..];
  }

  lemma HeadInFront(p: RunTest, head: seq<Item>, s: seq<Item>)
    requires Compaction.IdRule(p) && AllRuns(p, [], s)
    requires head == [] || (|head| == 1 && head[0].System?)
    ensures AllRuns(p, [], head + s)
  {
    if head == [] {
      assert head + s == s;
    } else {
      var x := head[0];
      assert head == [x];
      AllRunsFront(p, [], x, s);
    }
  }

  lemma {:induction false} LastRunObeys(p: RunTest, calls: seq<ToolCall>, s: seq<Item>, n: nat)
    requires AllRuns(p, calls, s) && n == TrailingResults(s)
    ensures p(if n == |s| then calls else CallsOf(s[|s| - n - 1]), s[|s| - n..])
    decreases |s|
  {
    TrailingIsARun(s);
    if n == |s| {
      assert s[0..] == s;
      RunLenOf(s, []);
      assert s + [] == s;
    } else {
      var k := |s| - n - 1;
      Compaction.SuffixObeys(p, calls, s, k);
      RunLenOf(s[k + 1..], []);
      assert s[k + 1..] + [] == s[k + 1..];
    }
  }

  lemma RecoverObeys(p: RunTest, cost: Cost, body: seq<Item>, budget: nat)
    requires Compaction.IdRule(p) && AllRuns(p, [], body)
    ensures AllRuns(p, [], Recover(cost, body, budget))
  {
    var n := TrailingResults(body);
    if body == [] {
      AllRunsStep(p, [], [], []);
    } else {
      LastRunObeys(p, [], body, n);
      if n == 0 {
        assert body[|body|..] == [];
        OneUnitObeys(p, TruncateItem(body[|body| - 1], budget), []);
      } else {
        RecoverRunObeys(p, cost, body, n, budget);
      }
    }
  }

  lemma {:induction false} RecoverRunObeys(p: RunTest, cost: Cost, body: seq<Item>, n: nat, budget: nat)
    requires Compaction.IdRule(p) && 0 < n == TrailingResults(body)
    requires p(if n == |body| then [] else CallsOf(body[|body| - n - 1]), body[|body| - n..])
    ensures AllRuns(p, [], CutUnit(cost, OwnerOf(body[..|body| - n]), body[|body| - n..], budget))
  {
    TrailingIsARun(body);
    BeforeTheRun(body, n);
    CutObeys(p, cost, body[..|body| - n], body[|body| - n..], budget);
  }

  lemma BeforeTheRun(body: seq<Item>, n: nat)
    requires n <= |body|
    ensures var front := body[..|body| - n];
            (front == [] <==> n == |body|) && (n < |body| ==> front[|front| - 1] == body[|body| - n - 1])
  {
  }

  lemma CutObeys(p: RunTest, cost: Cost, front: seq<Item>, results: seq<Item>, budget: nat)
    requires Compaction.IdRule(p) && results != [] && AllResults(results)
    requires front != [] ==> !front[|front| - 1].ToolResult?
    requires p(if front == [] then [] else CallsOf(front[|front| - 1]), results)
    ensures AllRuns(p, [], CutUnit(cost, OwnerOf(front), results, budget))
  {
    var calls := if front == [] then [] else CallsOf(front[|front| - 1]);
    assert RunPaired(calls, results);
    assert results[0].id in ResultIds(results);
    var x := front[|front| - 1];
    var run := TruncateAll(results, Share(budget, Total(cost, [x]), |results|));
    assert AllResults(run) && Compaction.SameIds(results, run);
    OneUnitObeys(p, x, run);
  }

  /** An item and its run, alone. */
  lemma OneUnitObeys(p: RunTest, x: Item, run: seq<Item>)
    requires Compaction.IdRule(p) && !x.ToolResult? && AllResults(run) && p(CallsOf(x), run)
    ensures AllRuns(p, [], [x] + run)
  {
    AllRunsStep(p, [], [], [x] + run);
    assert [] + ([x] + run) == [x] + run && ([x] + run)[1..] == run;
    AllRunsStep(p, CallsOf(x), run, []);
    assert run + [] == run;
  }
}
