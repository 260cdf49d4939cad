/** The billing ledger: saturating totals, overall and per model, and folding one ledger
into another. */
module UsageLedger {
  import opened Options

  const I64_MAX: int := 0x7FFF_FFFF_FFFF_FFFF
  const I64_MIN: int := -0x8000_0000_0000_0000

  type U64 = n: int | 0 <= n <= U64_MAX
  type U32 = n: int | 0 <= n <= 0xFFFF_FFFF
  type I64 = n: int | I64_MIN <= n <= I64_MAX

  datatype UsageTotals = UsageTotals(
    inputTokens: U64, outputTokens: U64, cachedReadTokens: U64, reasoningTokens: U64,
    modelCalls: U64, apiDurationMs: U64, costUsdTicks: Option<I64>, costMissingCalls: U64)

  const Zero: UsageTotals := UsageTotals(0, 0, 0, 0, 0, 0, None, 0)

  datatype TokenUsage = TokenUsage(prompt: U32, completion: U32, reasoning: U32, cachedPrompt: U32)

  function SaturatingAdd(a: U64, b: U64): U64 { if a + b > U64_MAX then U64_MAX else a + b }

  function SaturatingAddI64(a: I64, b: I64): I64 {
    if a + b > I64_MAX then I64_MAX else if a + b < I64_MIN then I64_MIN else a + b
  }

  function MergeCostTicks(a: Option<I64>, b: Option<I64>): Option<I64> {
    if a.None? && b.None? then None
    else Some(SaturatingAddI64(if a.Some? then a.value else 0, if b.Some? then b.value else 0))
  }

  function FoldTotals(a: UsageTotals, b: UsageTotals): UsageTotals {
    UsageTotals(
      SaturatingAdd(a.inputTokens, b.inputTokens),
      SaturatingAdd(a.outputTokens, b.outputTokens),
      SaturatingAdd(a.cachedReadTokens, b.cachedReadTokens),
      SaturatingAdd(a.reasoningTokens, b.reasoningTokens),
      SaturatingAdd(a.modelCalls, b.modelCalls),
      SaturatingAdd(a.apiDurationMs, b.apiDurationMs),
      MergeCostTicks(a.costUsdTicks, b.costUsdTicks),
      SaturatingAdd(a.costMissingCalls, b.costMissingCalls))
  }

  /** Zero and negative costs mean "not reported". */
  function ReportedCostTicks(raw: Option<I64>): (r: Option<I64>)
    ensures r.Some? <==> raw.Some? && raw.value > 0
    ensures r.Some? ==> r == raw
  {
    if raw.Some? && raw.value > 0 then raw else None
  }

  function FromCall(usage: TokenUsage, durationMs: Option<U64>, cost: Option<I64>): UsageTotals {
    var reported := ReportedCostTicks(cost);
    UsageTotals(usage.prompt, usage.completion, usage.cachedPrompt, usage.reasoning, 1,
                if durationMs.Some? then durationMs.value else 0, reported, if reported.None? then 1 else 0)
  }

  predicate CostIsPartial(t: UsageTotals) { t.costUsdTicks.Some? && t.costMissingCalls > 0 }

  // ---------- Exact sums ----------

  /** What a total measures; `Reported` is 1 if there is a cost. */
  datatype Measure =
    InputTokens | OutputTokens | CachedReadTokens | ReasoningTokens | ModelCalls | ApiDurationMs | CostMissingCalls | Cost | Reported

  function Of(t: UsageTotals, q: Measure): int {
    match q
    case InputTokens => t.inputTokens
    case OutputTokens => t.outputTokens
    case CachedReadTokens => t.cachedReadTokens
    case ReasoningTokens => t.reasoningTokens
    case ModelCalls => t.modelCalls
    case ApiDurationMs => t.apiDurationMs
    case CostMissingCalls => t.costMissingCalls
    case Cost => if t.costUsdTicks.Some? then t.costUsdTicks.value else 0
    case Reported => if t.costUsdTicks.Some? then 1 else 0
  }

  /** An exact sum cut to the range of the measure. */
  function Cut(q: Measure, n: int): int {
    var limit := if q.Cost? then I64_MAX else if q.Reported? then 1 else U64_MAX;
    if n > limit then limit else n
  }

  predicate NonNegative(t: UsageTotals) { t.costUsdTicks.Some? ==> t.costUsdTicks.value >= 0 }

  lemma Measured(t: UsageTotals, q: Measure)
    requires NonNegative(t)
    ensures Of(t, q) >= 0 && Of(t, q) == Cut(q, Of(t, q))
  {
  }

  lemma FoldMeasures(a: UsageTotals, b: UsageTotals, q: Measure)
    requires NonNegative(a) && NonNegative(b)
    ensures Of(FoldTotals(a, b), q) == Cut(q, Of(a, q) + Of(b, q))
    ensures NonNegative(FoldTotals(a, b))
  {
  }

  lemma CutMore(q: Measure, n: int, more: int)
    requires more >= 0
    ensures Cut(q, Cut(q, n) + more) == Cut(q, n + more)
  {
  }

  lemma SameMeasures(a: UsageTotals, b: UsageTotals)
    requires NonNegative(a) && NonNegative(b) && forall q :: Of(a, q) == Of(b, q)
    ensures a == b
  {
    assert Of(a, InputTokens) == Of(b, InputTokens) && Of(a, OutputTokens) == Of(b, OutputTokens);
    assert Of(a, CachedReadTokens) == Of(b, CachedReadTokens) && Of(a, ReasoningTokens) == Of(b, ReasoningTokens);
    assert Of(a, ModelCalls) == Of(b, ModelCalls) && Of(a, ApiDurationMs) == Of(b, ApiDurationMs);
    assert Of(a, CostMissingCalls) == Of(b, CostMissingCalls);
    assert Of(a, Cost) == Of(b, Cost) && Of(a, Reported) == Of(b, Reported);
  }

  // ---------- The ledger ----------

  type Entry = (string, UsageTotals)

  /** `byModel` is in insertion order, as the map of the source keeps it. */
  datatype Ledger = Ledger(totals: UsageTotals, byModel: seq<Entry>, mainLoopModelCalls: U64, incomplete: bool)

  const Empty: Ledger := Ledger(Zero, [], 0, false)

  /** Fold into the entry of `model`, a new one at the end if there is none. */
  function FoldInto(entries: seq<Entry>, model: string, t: UsageTotals): seq<Entry> {
    if entries == [] then [(model, FoldTotals(Zero, t))]
    else if entries[0].0 == model then [(model, FoldTotals(entries[0].1, t))] + entries[1..]
    else [entries[0]] + FoldInto(entries[1..], model, t)
  }

  function FoldEntry(l: Ledger, model: string, t: UsageTotals): Ledger {
    l.(totals := FoldTotals(l.totals, t), byModel := FoldInto(l.byModel, model, t))
  }

  function FoldEntries(l: Ledger, entries: seq<Entry>): Ledger {
    if entries == [] then l
    else FoldEntry(FoldEntries(l, entries[..|entries| - 1]), entries[|entries| - 1].0, entries[|entries| - 1].1)
  }

  datatype Op =
    | MainLoopCall(model: string, usage: TokenUsage, durationMs: Option<U64>, cost: Option<I64>)
    | Subagent(byModel: seq<Entry>, incomplete: bool)
    | MarkIncomplete

  function Step(l: Ledger, op: Op): Ledger {
    match op
    case MainLoopCall(model, usage, ms, cost) =>
      FoldEntry(l.(mainLoopModelCalls := SaturatingAdd(l.mainLoopModelCalls, 1)), model, FromCall(usage, ms, cost))
    case Subagent(byModel, incomplete) =>
      var folded := FoldEntries(l, byModel);
      if incomplete then folded.(incomplete := true) else folded
    case MarkIncomplete => l.(incomplete := true)
  }

  /** What happens to a ledger: a model call, a subagent that finishes with a ledger of its
      own, or a mark. */
  datatype Act =
    | Call(model: string, usage: TokenUsage, durationMs: Option<U64>, cost: Option<I64>)
    | Child(acts: seq<Act>, childIncomplete: bool)
    | Mark

  function OpOf(act: Act): Op {
    match act
    case Call(model, usage, ms, cost) => MainLoopCall(model, usage, ms, cost)
    case Child(acts, childIncomplete) => Subagent(Build(acts).byModel, childIncomplete)
    case Mark => MarkIncomplete
  }

  /** The ledgers of the program: subagents hand over the entries of theirs. */
  function Build(acts: seq<Act>): Ledger {
    if acts == [] then Empty else Step(Build(acts[..|acts| - 1]), OpOf(acts[|acts| - 1]))
  }

  /** All calls of the tree, as entries. */
  function Leaves(acts: seq<Act>): seq<Entry> {
    if acts == [] then [] else Leaves(acts[..|acts| - 1]) + LeavesOf(acts[|acts| - 1])
  }

  function LeavesOf(act: Act): seq<Entry> {
    match act
    case Call(model, usage, ms, cost) => [(model, FromCall(usage, ms, cost))]
    case Child(acts, _) => Leaves(acts)
    case Mark => []
  }

  class UsageLedger {
    var totals: UsageTotals
    var byModel: seq<Entry>
    var mainLoopModelCalls: U64
    var incomplete: bool

    function Now(): Ledger
      reads this
    {
      Ledger(totals, byModel, mainLoopModelCalls, incomplete)
    }

    constructor ()
      ensures Now() == Empty
    {
      totals, byModel, mainLoopModelCalls, incomplete := Zero, [], 0, false;
    }

    method RecordMainLoopCall(model: string, usage: TokenUsage, durationMs: Option<U64>, cost: Option<I64>)
      modifies this
      ensures Now() == Step(old(Now()), MainLoopCall(model, usage, durationMs, cost))
    {
      var call := FromCall(usage, durationMs, cost);
      mainLoopModelCalls := SaturatingAdd(mainLoopModelCalls, 1);
      RecordEntry(model, call);
    }

    method RecordSubagent(entries: seq<Entry>, childIncomplete: bool)
      modifies this
      ensures Now() == Step(old(Now()), Subagent(entries, childIncomplete))
    {
      assert entries[..0] == [];
      for i := 0 to |entries|
        invariant Now() == FoldEntries(old(Now()), entries[..i])
      {
        assert entries[..i + 1][..i] == entries[..i];
        RecordEntry(entries[i].0, entries[i].1);
      }
      assert entries[..|entries|] == entries;
      if childIncomplete {
        incomplete := true;
      }
    }

    method SetIncomplete()
      modifies this`incomplete
      ensures Now() == Step(old(Now()), MarkIncomplete)
    {
      incomplete := true;
    }

    method RecordEntry(model: string, t: UsageTotals)
      modifies this`totals, this`byModel
      ensures Now() == FoldEntry(old(Now()), model, t)
    {
      totals := FoldTotals(totals, t);
      byModel := FoldInto(byModel, model, t);
    }
  }

  /** A session's ledger, its subagents' ledgers folded in as they finish. */
  method RecordSession(acts: seq<Act>) returns (ledger: UsageLedger)
    ensures fresh(ledger) && ledger.Now() == Build(acts)
    decreases acts
  {
    ledger := new UsageLedger();
    assert acts[..0] == [];
    for i := 0 to |acts|
      invariant fresh(ledger) && ledger.Now() == Build(acts[..i])
    {
      assert acts[..i + 1][..i] == acts[..i];
      match acts[i] {
        case Call(model, usage, ms, cost) => ledger.RecordMainLoopCall(model, usage, ms, cost);
        case Child(childActs, childIncomplete) =>
          var child := RecordSession(childActs);
          ledger.RecordSubagent(child.byModel, childIncomplete);
        case Mark => ledger.SetIncomplete();
      }
    }
    assert acts[..|acts|] == acts;
  }

  // ---------- What the ledger means ----------

  predicate AllNonNegative(entries: seq<Entry>) {
    entries == [] || (NonNegative(entries[|entries| - 1].1) && AllNonNegative(entries[..|entries| - 1]))
  }

  predicate Sound(l: Ledger) { NonNegative(l.totals) && AllNonNegative(l.byModel) }

  function Lookup(entries: seq<Entry>, model: string): Option<UsageTotals> {
    if entries == [] then None
    else if entries[0].0 == model then Some(entries[0].1)
    else Lookup(entries[1..], model)
  }

  function OfOr(t: Option<UsageTotals>, q: Measure): int {
    if t.Some? then Of(t.value, q) else 0
  }

  predicate Mentions(entries: seq<Entry>, model: string) {
    entries != [] && (entries[|entries| - 1].0 == model || Mentions(entries[..|entries| - 1], model))
  }

  /** Exact sum of a measure over the entries of one model, or over all. */
  function Sum(entries: seq<Entry>, model: Option<string>, q: Measure): int {
    if entries == [] then 0
    else
      var last := entries[|entries| - 1];
      Sum(entries[..|entries| - 1], model, q) + if model.None? || model.value == last.0 then Of(last.1, q) else 0
  }

  /** In the measure `q`, `l` is `base` and the recorded entries, exactly summed and cut
      off once: overall, and for the model `m`, which has an entry only if it must. */
  predicate Extends(l: Ledger, base: Ledger, entries: seq<Entry>, m: string, q: Measure) {
    && Sound(l)
    && Of(l.totals, q) == Cut(q, Of(base.totals, q) + Sum(entries, None, q))
    && ExtendsModel(Lookup(l.byModel, m), Lookup(base.byModel, m), entries, m, q)
  }

  predicate ExtendsModel(t: Option<UsageTotals>, base: Option<UsageTotals>, entries: seq<Entry>, m: string, q: Measure) {
    && (t.Some? <==> base.Some? || Mentions(entries, m))
    && OfOr(t, q) == Cut(q, OfOr(base, q) + Sum(entries, Some(m), q))
  }

  lemma {:induction false} LookupFoldInto(entries: seq<Entry>, model: string, t: UsageTotals, m: string)
    ensures Lookup(FoldInto(entries, model, t), m) ==
            if m != model then Lookup(entries, m)
            else Some(FoldTotals(if Lookup(entries, m).Some? then Lookup(entries, m).value else Zero, t))
  {
    if entries != [] && entries[0].0 != model {
      LookupFoldInto(entries[1..], model, t, m);
    }
  }

  lemma {:induction false} NonNegativeConcat(a: seq<Entry>, b: seq<Entry>)
    ensures AllNonNegative(a + b) <==> AllNonNegative(a) && AllNonNegative(b)
  {
    if b == [] {
      assert a + b == a;
    } else {
      assert (a + b)[..|a + b| - 1] == a + b[..|b| - 1];
      NonNegativeConcat(a, b[..|b| - 1]);
    }
  }

  lemma NonNegativeCons(entries: seq<Entry>)
    requires entries != []
    ensures AllNonNegative(entries) <==> NonNegative(entries[0].1) && AllNonNegative(entries[1..])
  {
    assert entries == [entries[0]] + entries[1..];
    NonNegativeConcat([entries[0]], entries[1..]);
  }

  lemma {:induction false} LookupNonNegative(entries: seq<Entry>, m: string)
    requires AllNonNegative(entries)
    ensures Lookup(entries, m).Some? ==> NonNegative(Lookup(entries, m).value)
  {
    if entries != [] {
      NonNegativeCons(entries);
      LookupNonNegative(entries[1..], m);
    }
  }

  lemma {:induction false} FoldIntoNonNegative(entries: seq<Entry>, model: string, t: UsageTotals)
    requires AllNonNegative(entries) && NonNegative(t)
    ensures AllNonNegative(FoldInto(entries, model, t))
  {
    if entries == [] {
      assert FoldInto(entries, model, t)[..0] == [];
    } else {
      NonNegativeCons(entries);
      NonNegativeCons(FoldInto(entries, model, t));
      assert FoldInto(entries, model, t)[1..] == if entries[0].0 == model then entries[1..] else FoldInto(entries[1..], model, t);
      if entries[0].0 != model {
        FoldIntoNonNegative(entries[1..], model, t);
      }
    }
  }

  lemma SumSnoc(entries: seq<Entry>, e: Entry, model: Option<string>, q: Measure)
    ensures Sum(entries + [e], model, q) == Sum(entries, model, q) + if model.None? || model.value == e.0 then Of(e.1, q) else 0
  {
    assert (entries + [e])[..|entries|] == entries;
  }

  lemma MentionsSnoc(entries: seq<Entry>, e: Entry, m: string)
    ensures Mentions(entries + [e], m) <==> Mentions(entries, m) || e.0 == m
  {
    assert (entries + [e])[..|entries|] == entries;
  }

  lemma FoldEntryExtends(l: Ledger, base: Ledger, entries: seq<Entry>, e: Entry, m: string, q: Measure)
    requires NonNegative(e.1) && Extends(l, base, entries, m, q)
    ensures Extends(FoldEntry(l, e.0, e.1), base, entries + [e], m, q)
  {
    TotalsExtend(l.totals, base.totals, entries, e, q);
    FoldIntoNonNegative(l.byModel, e.0, e.1);
    FoldIntoExtends(l.byModel, Lookup(base.byModel, m), entries, e, m, q);
    ExtendsParts(FoldEntry(l, e.0, e.1), base, entries + [e], m, q);
  }

  lemma ExtendsParts(l: Ledger, base: Ledger, entries: seq<Entry>, m: string, q: Measure)
    requires Sound(l) && Of(l.totals, q) == Cut(q, Of(base.totals, q) + Sum(entries, None, q))
    requires ExtendsModel(Lookup(l.byModel, m), Lookup(base.byModel, m), entries, m, q)
    ensures Extends(l, base, entries, m, q)
  {
  }

  lemma FoldIntoExtends(byModel: seq<Entry>, base: Option<UsageTotals>, entries: seq<Entry>, e: Entry, m: string, q: Measure)
    requires AllNonNegative(byModel) && NonNegative(e.1) && ExtendsModel(Lookup(byModel, m), base, entries, m, q)
    ensures ExtendsModel(Lookup(FoldInto(byModel, e.0, e.1), m), base, entries + [e], m, q)
  {
    LookupFoldInto(byModel, e.0, e.1, m);
    LookupNonNegative(byModel, m);
    FoldModelExtends(Lookup(byModel, m), base, entries, e, m, q);
  }

  lemma {:induction false} TotalsExtend(t: UsageTotals, base: UsageTotals, entries: seq<Entry>, e: Entry, q: Measure)
    requires NonNegative(e.1) && NonNegative(t) && Of(t, q) == Cut(q, Of(base, q) + Sum(entries, None, q))
    ensures var next := FoldTotals(t, e.1);
            NonNegative(next) && Of(next, q) == Cut(q, Of(base, q) + Sum(entries + [e], None, q))
  {
    SumSnoc(entries, e, None, q);
    Measured(e.1, q);
    FoldMeasures(t, e.1, q);
    CutMore(q, Of(base, q) + Sum(entries, None, q), Of(e.1, q));
  }

  lemma FoldModelExtends(t: Option<UsageTotals>, base: Option<UsageTotals>, entries: seq<Entry>, e: Entry, m: string, q: Measure)
    requires NonNegative(e.1) && (t.Some? ==> NonNegative(t.value)) && ExtendsModel(t, base, entries, m, q)
    ensures var next := if m == e.0 then Some(FoldTotals(if t.Some? then t.value else Zero, e.1)) else t;
            ExtendsModel(next, base, entries + [e], m, q)
  {
    SumSnoc(entries, e, Some(m), q);
    MentionsSnoc(entries, e, m);
    if m == e.0 {
      FoldMeasures(if t.Some? then t.value else Zero, e.1, q);
      Measured(e.1, q);
      CutMore(q, OfOr(base, q) + Sum(entries, Some(m), q), Of(e.1, q));
    }
  }

  /** Saturating at every entry comes to the same as saturating once. */
  lemma {:induction false} FoldEntriesExtends(l: Ledger, base: Ledger, entries: seq<Entry>, more: seq<Entry>, m: string, q: Measure)
    requires AllNonNegative(more) && Extends(l, base, entries, m, q)
    ensures Extends(FoldEntries(l, more), base, entries + more, m, q)
  {
    if more == [] {
      assert entries + more == entries;
    } else {
      var front, last := more[..|more| - 1], more[|more| - 1];
      assert entries + more == entries + front + [last];
      FoldEntriesExtends(l, base, entries, front, m, q);
      FoldEntryExtends(FoldEntries(l, front), base, entries + front, last, m, q);
    }
  }

  lemma OrMeasured(t: Option<UsageTotals>, q: Measure)
    requires t.Some? ==> NonNegative(t.value)
    ensures OfOr(t, q) >= 0 && OfOr(t, q) == Cut(q, OfOr(t, q))
  {
    if t.Some? {
      Measured(t.value, q);
    }
  }

  lemma ExtendsNothing(base: Ledger, m: string, q: Measure)
    requires Sound(base)
    ensures Extends(base, base, [], m, q)
  {
    Measured(base.totals, q);
    LookupNonNegative(base.byModel, m);
    OrMeasured(Lookup(base.byModel, m), q);
  }

  // ---------- Totals are the sum over the models ----------

  lemma {:induction false} SumConcat(a: seq<Entry>, b: seq<Entry>, model: Option<string>, q: Measure)
    ensures Sum(a + b, model, q) == Sum(a, model, q) + Sum(b, model, q)
  {
    if b == [] {
      assert a + b == a;
    } else {
      assert (a + b)[..|a + b| - 1] == a + b[..|b| - 1];
      SumConcat(a, b[..|b| - 1], model, q);
    }
  }

  lemma SumCons(entries: seq<Entry>, model: Option<string>, q: Measure)
    requires entries != []
    ensures Sum(entries, model, q) ==
            (if model.None? || model.value == entries[0].0 then Of(entries[0].1, q) else 0) + Sum(entries[1..], model, q)
  {
    assert entries == [entries[0]] + entries[1..];
    SumConcat([entries[0]], entries[1..], model, q);
    assert [entries[0]][..0] == [];
  }

  lemma {:induction false} SumNonNegative(entries: seq<Entry>, model: Option<string>, q: Measure)
    requires AllNonNegative(entries)
    ensures Sum(entries, model, q) >= 0
  {
    if entries != [] {
      SumNonNegative(entries[..|entries| - 1], model, q);
      Measured(entries[|entries| - 1].1, q);
    }
  }

  /** Where the folding took place. */
  lemma {:induction false} FoldIntoShape(entries: seq<Entry>, model: string, t: UsageTotals)
    returns (front: seq<Entry>, was: UsageTotals, back: seq<Entry>)
    ensures FoldInto(entries, model, t) == front + [(model, FoldTotals(was, t))] + back
    ensures entries == front + [(model, was)] + back || (was == Zero && entries == front + back)
  {
    if entries == [] {
      front, was, back := [], Zero, [];
    } else if entries[0].0 == model {
      front, was, back := [], entries[0].1, entries[1..];
      assert entries == [(model, was)] + back;
    } else {
      front, was, back := FoldIntoShape(entries[1..], model, t);
      front := [entries[0]] + front;
      assert entries == [entries[0]] + entries[1..];
    }
  }

  lemma SumMiddle(front: seq<Entry>, e: Entry, back: seq<Entry>, q: Measure)
    ensures Sum(front + [e] + back, None, q) == Sum(front + back, None, q) + Of(e.1, q)
  {
    SumSnoc(front, e, None, q);
    SumConcat(front + [e], back, None, q);
    SumConcat(front, back, None, q);
  }

  /** Folding into one entry raises the cut sum over all entries by as much. */
  lemma FoldIntoAdds(entries: seq<Entry>, model: string, t: UsageTotals, q: Measure)
    requires AllNonNegative(entries) && NonNegative(t)
    ensures Cut(q, Sum(FoldInto(entries, model, t), None, q)) == Cut(q, Sum(entries, None, q) + Of(t, q))
  {
    var front, was, back := FoldIntoShape(entries, model, t);
    SumMiddle(front, (model, was), back, q);
    SumMiddle(front, (model, FoldTotals(was, t)), back, q);
    NonNegativeMiddle(front, (model, was), back);
    SumNonNegative(front + back, None, q);
    FoldFirst(was, t, Sum(front + back, None, q), q);
  }

  lemma NonNegativeMiddle(front: seq<Entry>, e: Entry, back: seq<Entry>)
    ensures AllNonNegative(front + [e] + back) <==> AllNonNegative(front + back) && NonNegative(e.1)
  {
    NonNegativeConcat(front, [e]);
    NonNegativeConcat(front + [e], back);
    NonNegativeConcat(front, back);
    assert [e][..0] == [];
  }

  lemma FoldFirst(a: UsageTotals, t: UsageTotals, rest: int, q: Measure)
    requires NonNegative(a) && NonNegative(t) && rest >= 0
    ensures Cut(q, Of(FoldTotals(a, t), q) + rest) == Cut(q, Of(a, q) + rest + Of(t, q))
  {
    FoldMeasures(a, t, q);
    CutMore(q, Of(a, q) + Of(t, q), rest);
  }

  lemma CutOfParts(q: Measure, a: int, b: int, c: int)
    requires a >= 0 && b >= 0 && c >= 0 && (Cut(q, b) == Cut(q, c) || b == Cut(q, c))
    ensures Cut(q, a + b) == Cut(q, a + c)
  {
  }

  /** The totals are the saturating sum of the entries per model. */
  predicate Balanced(l: Ledger, q: Measure) {
    Sound(l) && Of(l.totals, q) == Cut(q, Sum(l.byModel, None, q))
  }

  lemma {:induction false} FoldEntriesBalanced(l: Ledger, entries: seq<Entry>, q: Measure)
    requires Balanced(l, q) && AllNonNegative(entries)
    ensures Balanced(FoldEntries(l, entries), q)
  {
    if entries != [] {
      var front, last := entries[..|entries| - 1], entries[|entries| - 1];
      FoldEntriesBalanced(l, front, q);
      FoldEntryBalanced(FoldEntries(l, front), last, q);
    }
  }

  lemma FoldEntryBalanced(l: Ledger, e: Entry, q: Measure)
    requires Balanced(l, q) && NonNegative(e.1)
    ensures Balanced(FoldEntry(l, e.0, e.1), q)
  {
    FoldIntoNonNegative(l.byModel, e.0, e.1);
    FoldIntoAdds(l.byModel, e.0, e.1, q);
    FoldMeasures(l.totals, e.1, q);
    Measured(e.1, q);
    CutMore(q, Sum(l.byModel, None, q), Of(e.1, q));
  }

  // ---------- Order does not matter ----------

  lemma SameElement<T>(a: seq<T>, b: seq<T>) returns (i: nat)
    requires a != [] && multiset(a) == multiset(b)
    ensures i < |b| && b[i] == a[|a| - 1]
    ensures multiset(a[..|a| - 1]) == multiset(b[..i] + b[i + 1..])
  {
    var rest, e := a[..|a| - 1], a[|a| - 1];
    assert a == rest + [e];
    assert multiset(a) == multiset(rest) + multiset{e};
    assert e in multiset(b);
    i :| 0 <= i < |b| && b[i] == e;
    var b1, b2 := b[..i], b[i + 1..];
    assert b == b1 + [e] + b2;
    assert multiset(b) == multiset(b1) + multiset{e} + multiset(b2);
    assert multiset(b1 + b2) == multiset(b) - multiset{e};
    assert multiset(rest) == multiset(a) - multiset{e};
  }

  lemma {:induction false} MentionsConcat(a: seq<Entry>, b: seq<Entry>, m: string)
    ensures Mentions(a + b, m) <==> Mentions(a, m) || Mentions(b, m)
  {
    if b == [] {
      assert a + b == a;
    } else {
      assert (a + b)[..|a + b| - 1] == a + b[..|b| - 1];
      MentionsConcat(a, b[..|b| - 1], m);
    }
  }

  lemma Middle(b1: seq<Entry>, e: Entry, b2: seq<Entry>, model: Option<string>, q: Measure, m: string)
    ensures var b := b1 + [e] + b2;
            && Sum(b, model, q) == Sum(b1 + b2, model, q) + (if model.None? || model.value == e.0 then Of(e.1, q) else 0)
            && (Mentions(b, m) <==> Mentions(b1 + b2, m) || e.0 == m)
            && (AllNonNegative(b) <==> AllNonNegative(b1 + b2) && NonNegative(e.1))
  {
    SumSnoc(b1, e, model, q);
    SumConcat(b1 + [e], b2, model, q);
    SumConcat(b1, b2, model, q);
    MentionsSnoc(b1, e, m);
    MentionsConcat(b1 + [e], b2, m);
    MentionsConcat(b1, b2, m);
    NonNegativeConcat(b1, [e]);
    NonNegativeConcat(b1 + [e], b2);
    NonNegativeConcat(b1, b2);
    assert [e][..0] == [];
  }

  /** Sums, models and signs do not depend on the order of the entries. */
  lemma {:induction false} Permuted(a: seq<Entry>, b: seq<Entry>, model: Option<string>, q: Measure, m: string)
    requires multiset(a) == multiset(b)
    ensures Sum(a, model, q) == Sum(b, model, q)
    ensures Mentions(a, m) <==> Mentions(b, m)
    ensures AllNonNegative(a) <==> AllNonNegative(b)
  {
    if a == [] {
      assert |b| == |multiset(b)| == 0;
    } else {
      var rest, e := a[..|a| - 1], a[|a| - 1];
      var i := SameElement(a, b);
      Permuted(rest, b[..i] + b[i + 1..], model, q, m);
      Middle(b[..i], e, b[i + 1..], model, q, m);
      assert b == b[..i] + [e] + b[i + 1..];
    }
  }

  // ---------- Main results ----------

  /** `l` is made from `calls` and nothing else, in the measure `q` and at the model `m`. */
  predicate Made(l: Ledger, calls: seq<Entry>, m: string, q: Measure) {
    AllNonNegative(calls) && Holds(l, calls, m, q) && Balanced(l, q) && Distinct(l.byModel)
  }

  /** Exact sums, cut off once: overall, and for `m`, which has an entry only if it must. */
  predicate Holds(l: Ledger, calls: seq<Entry>, m: string, q: Measure) {
    && Sound(l)
    && Of(l.totals, q) == Cut(q, Sum(calls, None, q))
    && (Lookup(l.byModel, m).Some? <==> Mentions(calls, m))
    && OfOr(Lookup(l.byModel, m), q) == Cut(q, Sum(calls, Some(m), q))
  }

  lemma HoldsIsExtends(l: Ledger, calls: seq<Entry>, m: string, q: Measure)
    ensures Holds(l, calls, m, q) <==> Extends(l, Empty, calls, m, q)
  {
    assert Of(Empty.totals, q) == 0;
    assert Lookup(Empty.byModel, m) == None;
  }

  /** For every ledger of the program, whatever the tree of calls and subagents, in every
      measure: the totals are the exact sum of all calls in the tree, cut off once; so is
      the entry of every model; and the totals are the saturating sum of the models. */
  lemma {:induction false} LedgerIsItsCalls(acts: seq<Act>, m: string, q: Measure)
    ensures Made(Build(acts), Leaves(acts), m, q)
    decreases acts
  {
    if acts != [] {
      var front, act := acts[..|acts| - 1], acts[|acts| - 1];
      LedgerIsItsCalls(front, m, q);
      if act.Child? {
        LedgerIsItsCalls(act.acts, m, q);
        ChildMade(Build(front), Leaves(front), Build(act.acts), Leaves(act.acts), m, q);
      }
      ActMade(Build(front), Leaves(front), act, m, q);
    } else {
      HoldsIsExtends(Empty, [], m, q);
      ExtendsNothing(Empty, m, q);
    }
  }

  lemma ActMade(l: Ledger, calls: seq<Entry>, act: Act, m: string, q: Measure)
    requires Made(l, calls, m, q)
    requires act.Child? ==> Made(FoldEntries(l, Build(act.acts).byModel), calls + Leaves(act.acts), m, q)
    ensures Made(Step(l, OpOf(act)), calls + LeavesOf(act), m, q)
  {
    match act
    case Call(_, _, _, _) => CallMade(l, calls, act, m, q);
    case Child(childActs, _) =>
      SameMade(FoldEntries(l, Build(childActs).byModel), Step(l, OpOf(act)), calls + LeavesOf(act), m, q);
    case Mark =>
      assert calls + [] == calls;
      SameMade(l, Step(l, OpOf(act)), calls, m, q);
  }

  lemma SameMade(a: Ledger, b: Ledger, calls: seq<Entry>, m: string, q: Measure)
    requires a.totals == b.totals && a.byModel == b.byModel
    ensures Made(a, calls, m, q) <==> Made(b, calls, m, q)
  {
  }

  lemma CallMade(l: Ledger, calls: seq<Entry>, act: Act, m: string, q: Measure)
    requires act.Call? && Made(l, calls, m, q)
    ensures Made(Step(l, OpOf(act)), calls + LeavesOf(act), m, q)
  {
    var e: Entry := (act.model, FromCall(act.usage, act.durationMs, act.cost));
    HoldsIsExtends(l, calls, m, q);
    FoldEntryExtends(l, Empty, calls, e, m, q);
    HoldsIsExtends(FoldEntry(l, e.0, e.1), calls + [e], m, q);
    NonNegativeConcat(calls, [e]);
    assert [e][..0] == [];
    FoldEntryBalanced(l, e, q);
    FoldIntoDistinct(l.byModel, e.0, e.1);
    SameMade(FoldEntry(l, e.0, e.1), Step(l, OpOf(act)), calls + [e], m, q);
  }

  lemma ChildMade(l: Ledger, calls: seq<Entry>, child: Ledger, childCalls: seq<Entry>, m: string, q: Measure)
    requires Made(l, calls, m, q) && Made(child, childCalls, m, q)
    ensures Made(FoldEntries(l, child.byModel), calls + childCalls, m, q)
  {
    HoldsIsExtends(l, calls, m, q);
    FoldEntriesExtends(l, Empty, calls, child.byModel, m, q);
    HoldsIsExtends(FoldEntries(l, child.byModel), calls + child.byModel, m, q);
    FoldEntriesBalanced(l, child.byModel, q);
    FoldEntriesDistinct(l, child.byModel);
    NonNegativeConcat(calls, childCalls);
    MadeMeasured(child, childCalls, m, q);
    SumNonNegative(calls, None, q);
    SumNonNegative(calls, Some(m), q);
    SumNonNegative(childCalls, None, q);
    SumNonNegative(childCalls, Some(m), q);
    SumNonNegative(child.byModel, None, q);
    SumNonNegative(child.byModel, Some(m), q);
    ReplaceTail(FoldEntries(l, child.byModel), calls, child.byModel, childCalls, m, q);
  }

  lemma {:induction false} ReplaceTail(l: Ledger, front: seq<Entry>, a: seq<Entry>, b: seq<Entry>, m: string, q: Measure)
    requires Holds(l, front + a, m, q)
    requires Cut(q, Sum(a, None, q)) == Cut(q, Sum(b, None, q)) && Sum(a, Some(m), q) == Cut(q, Sum(b, Some(m), q))
    requires Mentions(a, m) <==> Mentions(b, m)
    requires Sum(front, None, q) >= 0 && Sum(a, None, q) >= 0 && Sum(b, None, q) >= 0
    requires Sum(front, Some(m), q) >= 0 && Sum(a, Some(m), q) >= 0 && Sum(b, Some(m), q) >= 0
    ensures Holds(l, front + b, m, q)
  {
    ReplaceSum(front, a, b, None, q);
    ReplaceSum(front, a, b, Some(m), q);
    MentionsConcat(front, a, m);
    MentionsConcat(front, b, m);
  }

  lemma ReplaceSum(front: seq<Entry>, a: seq<Entry>, b: seq<Entry>, model: Option<string>, q: Measure)
    requires Cut(q, Sum(a, model, q)) == Cut(q, Sum(b, model, q)) || Sum(a, model, q) == Cut(q, Sum(b, model, q))
    requires Sum(front, model, q) >= 0 && Sum(a, model, q) >= 0 && Sum(b, model, q) >= 0
    ensures Cut(q, Sum(front + a, model, q)) == Cut(q, Sum(front + b, model, q))
  {
    SumConcat(front, a, model, q);
    SumConcat(front, b, model, q);
    CutOfParts(q, Sum(front, model, q), Sum(a, model, q), Sum(b, model, q));
  }

  /** A ledger's models say as much as the calls it was made from. */
  lemma MadeMeasured(l: Ledger, calls: seq<Entry>, m: string, q: Measure)
    requires Made(l, calls, m, q)
    ensures Cut(q, Sum(l.byModel, None, q)) == Cut(q, Sum(calls, None, q))
    ensures Sum(l.byModel, Some(m), q) == Cut(q, Sum(calls, Some(m), q))
    ensures Mentions(l.byModel, m) <==> Mentions(calls, m)
  {
    SumOfOneModel(l.byModel, m, q);
  }

  /** The totals come out again when the entries per model are folded together, in any order. */
  lemma {:induction false} TotalsAreTheSumOfModels(acts: seq<Act>, shuffled: seq<Entry>)
    requires multiset(shuffled) == multiset(Build(acts).byModel)
    ensures FoldEntries(Empty, shuffled).totals == Build(acts).totals
  {
    var l, again := Build(acts), FoldEntries(Empty, shuffled);
    forall q ensures Sound(l) && Sound(again) && Of(again.totals, q) == Of(l.totals, q) {
      LedgerIsItsCalls(acts, "", q);
      SumAgain(l, shuffled, q);
    }
    assert Of(again.totals, Cost) == Of(l.totals, Cost);
    SameMeasures(again.totals, l.totals);
  }

  lemma {:induction false} SumAgain(l: Ledger, shuffled: seq<Entry>, q: Measure)
    requires Balanced(l, q) && multiset(shuffled) == multiset(l.byModel)
    ensures var again := FoldEntries(Empty, shuffled); Sound(again) && Of(again.totals, q) == Of(l.totals, q)
  {
    assert [] + shuffled == shuffled;
    Permuted(shuffled, l.byModel, None, q, "");
    ExtendsNothing(Empty, "", q);
    FoldEntriesExtends(Empty, Empty, [], shuffled, "", q);
  }

  function Calls(acts: seq<Act>): nat {
    if acts == [] then 0 else Calls(acts[..|acts| - 1]) + if acts[|acts| - 1].Call? then 1 else 0
  }

  predicate Incomplete(act: Act) { act.Mark? || (act.Child? && act.childIncomplete) }

  /** A session's own calls alone are counted as such, and incompleteness is never forgotten. */
  lemma {:induction false} LedgerCountsCalls(acts: seq<Act>)
    ensures Build(acts).mainLoopModelCalls == Cut(ModelCalls, Calls(acts))
    ensures Build(acts).incomplete <==> exists act | act in acts :: Incomplete(act)
  {
    if acts != [] {
      var front, act := acts[..|acts| - 1], acts[|acts| - 1];
      LedgerCountsCalls(front);
      if act.Child? {
        FoldEntriesFrame(Build(front), Build(act.acts).byModel);
      }
      SomeIncomplete(front, act);
      assert acts == front + [act];
    }
  }

  lemma SomeIncomplete(front: seq<Act>, last: Act)
    ensures (exists act | act in front + [last] :: Incomplete(act)) <==>
            (exists act | act in front :: Incomplete(act)) || Incomplete(last)
  {
    assert last in front + [last];
    assert forall act | act in front :: act in front + [last];
  }

  lemma {:induction false} FoldEntriesFrame(l: Ledger, entries: seq<Entry>)
    ensures var r := FoldEntries(l, entries); r.mainLoopModelCalls == l.mainLoopModelCalls && r.incomplete == l.incomplete
  {
    if entries != [] {
      FoldEntriesFrame(l, entries[..|entries| - 1]);
    }
  }

  /** Folding a child's ledger into a parent's is recording all calls of the child's tree
      with the parent, in any order: same totals, same entry for every model, and the count
      of the parent's own calls untouched. */
  lemma {:induction false} ChildFoldIsReplay(acts: seq<Act>, child: seq<Act>, shuffled: seq<Entry>, incomplete: bool)
    requires multiset(shuffled) == multiset(Leaves(child))
    ensures var folded, replayed := Build(acts + [Child(child, incomplete)]), FoldEntries(Build(acts), shuffled);
            && folded.totals == replayed.totals
            && (forall m :: Lookup(folded.byModel, m) == Lookup(replayed.byModel, m))
            && folded.mainLoopModelCalls == replayed.mainLoopModelCalls == Build(acts).mainLoopModelCalls
  {
    var parent, entries := Build(acts), Build(child).byModel;
    var folded, replayed := FoldEntries(parent, entries), FoldEntries(parent, shuffled);
    assert (acts + [Child(child, incomplete)])[..|acts|] == acts;
    FoldEntriesFrame(parent, entries);
    FoldEntriesFrame(parent, shuffled);
    forall m, q ensures Alike(folded, replayed, m, q) {
      ChildFoldMeasured(acts, child, shuffled, m, q);
    }
    AlikeIsSame(folded, replayed);
  }

  /** No difference in the measure `q`, overall and for the model `m`. */
  predicate Alike(a: Ledger, b: Ledger, m: string, q: Measure) {
    && Sound(a) && Sound(b)
    && Of(a.totals, q) == Of(b.totals, q)
    && (Lookup(a.byModel, m).Some? <==> Lookup(b.byModel, m).Some?)
    && OfOr(Lookup(a.byModel, m), q) == OfOr(Lookup(b.byModel, m), q)
  }

  lemma AlikeIsSame(a: Ledger, b: Ledger)
    requires forall m, q :: Alike(a, b, m, q)
    ensures a.totals == b.totals && forall m :: Lookup(a.byModel, m) == Lookup(b.byModel, m)
  {
    assert Alike(a, b, "", Cost);
    forall q ensures Of(a.totals, q) == Of(b.totals, q) {
      assert Alike(a, b, "", q);
    }
    SameMeasures(a.totals, b.totals);
    forall m ensures Lookup(a.byModel, m) == Lookup(b.byModel, m) {
      forall q ensures OfOr(Lookup(a.byModel, m), q) == OfOr(Lookup(b.byModel, m), q) {
        assert Alike(a, b, m, q);
      }
      assert Alike(a, b, m, Cost);
      SameEntry(a.byModel, b.byModel, m);
    }
  }

  lemma {:induction false} SameEntry(a: seq<Entry>, b: seq<Entry>, m: string)
    requires AllNonNegative(a) && AllNonNegative(b) && (Lookup(a, m).Some? <==> Lookup(b, m).Some?)
    requires forall q :: OfOr(Lookup(a, m), q) == OfOr(Lookup(b, m), q)
    ensures Lookup(a, m) == Lookup(b, m)
  {
    LookupNonNegative(a, m);
    LookupNonNegative(b, m);
    if Lookup(a, m).Some? {
      forall q ensures Of(Lookup(a, m).value, q) == Of(Lookup(b, m).value, q) {
        assert OfOr(Lookup(a, m), q) == OfOr(Lookup(b, m), q);
      }
      SameMeasures(Lookup(a, m).value, Lookup(b, m).value);
    }
  }

  lemma {:induction false} ChildFoldMeasured(acts: seq<Act>, child: seq<Act>, shuffled: seq<Entry>, m: string, q: Measure)
    requires multiset(shuffled) == multiset(Leaves(child))
    ensures Alike(FoldEntries(Build(acts), Build(child).byModel), FoldEntries(Build(acts), shuffled), m, q)
  {
    LedgerIsItsCalls(acts, m, q);
    LedgerIsItsCalls(child, m, q);
    MadeMeasured(Build(child), Leaves(child), m, q);
    Permuted(shuffled, Leaves(child), None, q, m);
    Permuted(shuffled, Leaves(child), Some(m), q, m);
    EqualSumsAlike(Build(acts), Build(child).byModel, shuffled, m, q);
  }

  lemma {:induction false} EqualSumsAlike(parent: Ledger, a: seq<Entry>, b: seq<Entry>, m: string, q: Measure)
    requires Sound(parent) && AllNonNegative(a) && AllNonNegative(b)
    requires Cut(q, Sum(a, None, q)) == Cut(q, Sum(b, None, q)) && Sum(a, Some(m), q) == Cut(q, Sum(b, Some(m), q))
    requires Mentions(a, m) <==> Mentions(b, m)
    ensures Alike(FoldEntries(parent, a), FoldEntries(parent, b), m, q)
  {
    ExtendsNothing(parent, m, q);
    assert [] + a == a && [] + b == b;
    FoldEntriesExtends(parent, parent, [], a, m, q);
    FoldEntriesExtends(parent, parent, [], b, m, q);
    SumNonNegative(a, None, q);
    SumNonNegative(b, None, q);
    SumNonNegative(a, Some(m), q);
    SumNonNegative(b, Some(m), q);
    EqualSumsGiveAlike(parent, FoldEntries(parent, a), FoldEntries(parent, b), a, b, m, q);
  }

  lemma {:induction false} EqualSumsGiveAlike(parent: Ledger, l: Ledger, l': Ledger, a: seq<Entry>, b: seq<Entry>, m: string, q: Measure)
    requires Sound(parent) && Extends(l, parent, a, m, q) && Extends(l', parent, b, m, q)
    requires Cut(q, Sum(a, None, q)) == Cut(q, Sum(b, None, q)) && Sum(a, Some(m), q) == Cut(q, Sum(b, Some(m), q))
    requires Sum(a, None, q) >= 0 && Sum(b, None, q) >= 0 && Sum(a, Some(m), q) >= 0 && Sum(b, Some(m), q) >= 0
    requires Mentions(a, m) <==> Mentions(b, m)
    ensures Alike(l, l', m, q)
  {
    Measured(parent.totals, q);
    LookupNonNegative(parent.byModel, m);
    OrMeasured(Lookup(parent.byModel, m), q);
    CutOfParts(q, Of(parent.totals, q), Sum(a, None, q), Sum(b, None, q));
    CutOfParts(q, OfOr(Lookup(parent.byModel, m), q), Sum(a, Some(m), q), Sum(b, Some(m), q));
  }

  predicate Distinct(entries: seq<Entry>) {
    entries == [] || (Lookup(entries[1..], entries[0].0).None? && Distinct(entries[1..]))
  }

  lemma {:induction false} FoldIntoDistinct(entries: seq<Entry>, model: string, t: UsageTotals)
    requires Distinct(entries)
    ensures Distinct(FoldInto(entries, model, t))
  {
    if entries != [] && entries[0].0 != model {
      FoldIntoDistinct(entries[1..], model, t);
      LookupFoldInto(entries[1..], model, t, entries[0].0);
    }
  }

  lemma {:induction false} FoldEntriesDistinct(l: Ledger, entries: seq<Entry>)
    requires Distinct(l.byModel)
    ensures Distinct(FoldEntries(l, entries).byModel)
  {
    if entries != [] {
      FoldEntriesDistinct(l, entries[..|entries| - 1]);
      FoldIntoDistinct(FoldEntries(l, entries[..|entries| - 1]).byModel, entries[|entries| - 1].0, entries[|entries| - 1].1);
    }
  }

  lemma {:induction false} SumOfOneModel(entries: seq<Entry>, m: string, q: Measure)
    requires Distinct(entries)
    ensures Mentions(entries, m) <==> Lookup(entries, m).Some?
    ensures Sum(entries, Some(m), q) == OfOr(Lookup(entries, m), q)
  {
    if entries != [] {
      SumOfOneModel(entries[1..], m, q);
      SumCons(entries, Some(m), q);
      assert entries == [entries[0]] + entries[1..];
      MentionsConcat([entries[0]], entries[1..], m);
      assert [entries[0]][..0] == [];
    }
  }

  /** The cost is partial exactly when some call of the tree reported a positive cost and
      some did not. */
  lemma CostIsPartialIff(acts: seq<Act>)
    ensures CostIsPartial(Build(acts).totals) <==> SomeCall(acts, true) && SomeCall(acts, false)
  {
    LedgerIsItsCalls(acts, "", Reported);
    LedgerIsItsCalls(acts, "", CostMissingCalls);
    CostParts(acts);
  }

  /** Some call of the tree reported a positive cost, or, if not `reported`, did not. */
  predicate SomeCall(acts: seq<Act>, reported: bool) {
    acts != [] && (SomeCallOf(acts[|acts| - 1], reported) || SomeCall(acts[..|acts| - 1], reported))
  }

  predicate SomeCallOf(act: Act, reported: bool) {
    match act
    case Call(_, _, _, cost) => ReportedCostTicks(cost).Some? == reported
    case Child(acts, _) => SomeCall(acts, reported)
    case Mark => false
  }

  lemma {:induction false} CostParts(acts: seq<Act>)
    ensures Sum(Leaves(acts), None, Reported) >= 0 && Sum(Leaves(acts), None, CostMissingCalls) >= 0
    ensures Sum(Leaves(acts), None, Reported) > 0 <==> SomeCall(acts, true)
    ensures Sum(Leaves(acts), None, CostMissingCalls) > 0 <==> SomeCall(acts, false)
    decreases acts
  {
    if acts != [] {
      var front, act := acts[..|acts| - 1], acts[|acts| - 1];
      CostParts(front);
      SumConcat(Leaves(front), LeavesOf(act), None, Reported);
      SumConcat(Leaves(front), LeavesOf(act), None, CostMissingCalls);
      match act
      case Call(model, usage, ms, cost) =>
        OneCall((model, FromCall(usage, ms, cost)), Reported);
        OneCall((model, FromCall(usage, ms, cost)), CostMissingCalls);
      case Child(childActs, _) => CostParts(childActs);
      case Mark =>
    }
  }

  lemma OneCall(e: Entry, q: Measure)
    ensures Sum([e], None, q) == Of(e.1, q)
  {
    assert [e][..0] == [];
  }

  // ---------- The ledger, in what the calls report ----------

  /** What a call reports in each measure. */
  function Reports(act: Act, q: Measure): int
    requires act.Call?
  {
    var paid := act.cost.Some? && act.cost.value > 0;
    match q
    case InputTokens => act.usage.prompt
    case OutputTokens => act.usage.completion
    case CachedReadTokens => act.usage.cachedPrompt
    case ReasoningTokens => act.usage.reasoning
    case ModelCalls => 1
    case ApiDurationMs => if act.durationMs.Some? then act.durationMs.value else 0
    case Cost => if paid then act.cost.value else 0
    case Reported => if paid then 1 else 0
    case CostMissingCalls => if paid then 0 else 1
  }

  /** The sum of what all calls of a tree, or those to one model, report. */
  function TreeSum(acts: seq<Act>, model: Option<string>, q: Measure): int {
    if acts == [] then 0 else TreeSum(acts[..|acts| - 1], model, q) + TreeSumOf(acts[|acts| - 1], model, q)
  }

  function TreeSumOf(act: Act, model: Option<string>, q: Measure): int {
    match act
    case Call(m, _, _, _) => if model.None? || model.value == m then Reports(act, q) else 0
    case Child(acts, _) => TreeSum(acts, model, q)
    case Mark => 0
  }

  /** Some call of the tree goes to the model. */
  predicate Uses(acts: seq<Act>, model: string) {
    acts != [] && (UsesIn(acts[|acts| - 1], model) || Uses(acts[..|acts| - 1], model))
  }

  predicate UsesIn(act: Act, model: string) {
    match act
    case Call(m, _, _, _) => m == model
    case Child(acts, _) => Uses(acts, model)
    case Mark => false
  }

  lemma {:induction false} LeavesReport(acts: seq<Act>, model: Option<string>, m: string, q: Measure)
    ensures Sum(Leaves(acts), model, q) == TreeSum(acts, model, q)
    ensures Mentions(Leaves(acts), m) <==> Uses(acts, m)
    decreases acts
  {
    if acts != [] {
      var front, last := acts[..|acts| - 1], acts[|acts| - 1];
      LeavesReport(front, model, m, q);
      LeavesOfReport(last, model, m, q);
      SumConcat(Leaves(front), LeavesOf(last), model, q);
      MentionsConcat(Leaves(front), LeavesOf(last), m);
    }
  }

  lemma {:induction false} LeavesOfReport(act: Act, model: Option<string>, m: string, q: Measure)
    ensures Sum(LeavesOf(act), model, q) == TreeSumOf(act, model, q)
    ensures Mentions(LeavesOf(act), m) <==> UsesIn(act, m)
    decreases act
  {
    hide Reports, FromCall;
    match act
    case Call(_, _, _, _) => CallReports(act, model, m, q);
    case Child(childActs, _) => LeavesReport(childActs, model, m, q);
    case Mark =>
  }

  lemma CallReports(act: Act, model: Option<string>, m: string, q: Measure)
    requires act.Call?
    ensures Sum(LeavesOf(act), model, q) == if model.None? || model.value == act.model then Reports(act, q) else 0
    ensures Mentions(LeavesOf(act), m) <==> act.model == m
  {
    var e := (act.model, FromCall(act.usage, act.durationMs, act.cost));
    assert LeavesOf(act) == [] + [e];
    SumSnoc([], e, model, q);
    MentionsSnoc([], e, m);
  }

  /** For every ledger of the program: the totals are the sums of what the calls of the tree
      report, cut off once, in every measure; so is the entry of every model, and a model
      has an entry exactly if some call went to it. */
  lemma LedgerIsItsReports(acts: seq<Act>, m: string, q: Measure)
    ensures var l := Build(acts);
            && Of(l.totals, q) == Cut(q, TreeSum(acts, None, q))
            && OfOr(Lookup(l.byModel, m), q) == Cut(q, TreeSum(acts, Some(m), q))
            && (Lookup(l.byModel, m).Some? <==> Uses(acts, m))
  {
    LedgerIsItsCalls(acts, m, q);
    LeavesReport(acts, None, m, q);
    LeavesReport(acts, Some(m), m, q);
  }

  /** `b` starts with the models of `a`, in the same order. */
  predicate SamePlaces(a: seq<Entry>, b: seq<Entry>) {
    |a| <= |b| && forall i | 0 <= i < |a| :: a[i].0 == b[i].0
  }

  lemma {:induction false} FoldIntoKeepsPlaces(entries: seq<Entry>, model: string, t: UsageTotals)
    ensures var r := FoldInto(entries, model, t);
            && SamePlaces(entries, r)
            && |r| == |entries| + (if Lookup(entries, model).Some? then 0 else 1)
            && (Lookup(entries, model).None? ==> r[|entries|].0 == model)
  {
    if entries != [] && entries[0].0 != model {
      FoldIntoKeepsPlaces(entries[1..], model, t);
    }
  }

  /** A model keeps its place for ever; a new one comes last. */
  lemma {:induction false} ModelsKeepTheirPlaces(l: Ledger, entries: seq<Entry>)
    ensures SamePlaces(l.byModel, FoldEntries(l, entries).byModel)
  {
    if entries != [] {
      var front, last := entries[..|entries| - 1], entries[|entries| - 1];
      ModelsKeepTheirPlaces(l, front);
      FoldIntoKeepsPlaces(FoldEntries(l, front).byModel, last.0, last.1);
    }
  }
}
