/** The document of one segment: whole turns until the byte budget is spent.  A `string`
stands for UTF-8 bytes; how a turn or the preamble is rendered is arbitrary. */
module SegmentDocument {
  import opened Options
  import opened Sequences
  import opened Text

  const SEGMENT_MAX_BYTES: nat := 512 * 1024
  const PER_TURN_OVERHEAD_BYTES: nat := 64

  /** The notice, around its two placeholders. */
  const OPENING: string := "\n\n[... TRUNCATED at "
  const MIDDLE: string := " bytes, "
  const CLOSING: string := " turns omitted ...]\n"
  const TRUNCATION_NOTICE: string := OPENING + ("{limit}" + (MIDDLE + ("{omitted}" + CLOSING)))

  /** The length of the template, as `NoticeParts` shows. */
  const NOTICE_BYTES: nat := 64

  function Bytes(blocks: seq<string>): nat {
    if blocks == [] then 0 else Bytes(blocks[..|blocks| - 1]) + |blocks[|blocks| - 1]|
  }

  function JoinLines(blocks: seq<string>): string {
    if blocks == [] then ""
    else if |blocks| == 1 then blocks[0]
    else JoinLines(blocks[..|blocks| - 1]) + "\n" + blocks[|blocks| - 1]
  }

  /** Blocks taken from the front, starting with `used`, before one does not fit. */
  function Kept(blocks: seq<string>, used: nat, budget: nat): (k: nat)
    ensures k <= |blocks|
    decreases |blocks|
  {
    if blocks == [] || used + |blocks[0]| > budget then 0 else 1 + Kept(blocks[1..], used + |blocks[0]|, budget)
  }

  function Budget(preamble: string): nat {
    var reserve := |preamble| + NOTICE_BYTES + PER_TURN_OVERHEAD_BYTES;
    if reserve > SEGMENT_MAX_BYTES then 0 else SEGMENT_MAX_BYTES - reserve
  }

  /** The notice with the cap and the number of turns left out. */
  function Notice(omitted: nat): string {
    OPENING + (Decimal(SEGMENT_MAX_BYTES) + (MIDDLE + (Decimal(omitted) + CLOSING)))
  }

  function Ending(omitted: nat): string { if omitted == 0 then "" else Notice(omitted) }

  function Document(preamble: string, blocks: seq<string>): string {
    var k := Kept(blocks, 0, Budget(preamble));
    preamble + JoinLines(blocks[..k]) + Ending(|blocks| - k)
  }

  function Blocks<T>(renderTurn: (T, nat) -> string, items: seq<T>): (b: seq<string>)
    ensures |b| == |items| && forall i | 0 <= i < |b| :: b[i] == renderTurn(items[i], i)
  {
    seq(|items|, i requires 0 <= i < |items| => renderTurn(items[i], i))
  }

  method RenderSegmentMd<T>(head: string, turnsHeader: Option<string>, renderTurn: (T, nat) -> string, items: seq<T>)
    returns (doc: string)
    ensures doc == if turnsHeader.None? then head else Document(head + turnsHeader.value, Blocks(renderTurn, items))
  {
    if turnsHeader.None? { return head; }
    var preamble := head + turnsHeader.value;
    var budget := ReserveSpace(preamble);
    var blocks, truncatedAt := KeepTurns(renderTurn, items, budget);
    doc := preamble + JoinLines(blocks);
    var ending := "";
    if truncatedAt < |items| {
      ending := FillInNotice(|items| - truncatedAt);
    }
    doc := doc + ending;
  }

  /** The preamble, the notice and slack for its numbers come out of the cap. */
  method ReserveSpace(preamble: string) returns (budget: nat)
    ensures budget == Budget(preamble)
  {
    NoticeParts();
    var reserve := |preamble| + |TRUNCATION_NOTICE| + PER_TURN_OVERHEAD_BYTES;
    budget := if reserve > SEGMENT_MAX_BYTES then 0 else SEGMENT_MAX_BYTES - reserve;
  }

  /** Render turn after turn until the budget is spent. */
  method KeepTurns<T>(renderTurn: (T, nat) -> string, items: seq<T>, budget: nat) returns (blocks: seq<string>, truncatedAt: nat)
    ensures truncatedAt == Kept(Blocks(renderTurn, items), 0, budget)
    ensures blocks == Blocks(renderTurn, items)[..truncatedAt]
  {
    blocks, truncatedAt := [], |items|;
    var used: nat := 0;
    ghost var all := Blocks(renderTurn, items);
    assert all[0..] == all;
    for i := 0 to |items|
      invariant blocks == all[..i] && truncatedAt == |items|
      invariant Kept(all, 0, budget) == i + Kept(all[i..], used, budget)
    {
      var block := renderTurn(items[i], i);
      KeptStep(all, i, used, budget);
      if used + |block| > budget {
        truncatedAt := i;
        break;
      }
      used := used + |block|;
      blocks := blocks + [block];
    }
  }

  method FillInNotice(omitted: nat) returns (notice: string)
    ensures notice == Notice(omitted)
  {
    notice := ReplaceAll(TRUNCATION_NOTICE, "{limit}", Decimal(SEGMENT_MAX_BYTES));
    notice := ReplaceAll(notice, "{omitted}", Decimal(omitted));
    NoticeIsFilledIn(omitted);
  }

  lemma KeptStep(all: seq<string>, i: nat, used: nat, budget: nat)
    requires i < |all|
    ensures Kept(all[i..], used, budget) == if used + |all[i]| > budget then 0 else 1 + Kept(all[i + 1..], used + |all[i]|, budget)
    ensures all[..i + 1] == all[..i] + [all[i]]
  {
    assert all[i..][1..] == all[i + 1..];
  }

  // ---------- The budget ----------

  lemma {:induction false} BytesCons(blocks: seq<string>)
    requires blocks != []
    ensures Bytes(blocks) == |blocks[0]| + Bytes(blocks[1..])
  {
    if |blocks| > 1 {
      BytesCons(blocks[..|blocks| - 1]);
      assert blocks[..|blocks| - 1][1..] == blocks[1..][..|blocks[1..]| - 1];
    }
  }

  /** A front of whole turns fits if and only if it is no longer than the one kept. */
  lemma {:induction false} KeptIsLongest(blocks: seq<string>, used: nat, budget: nat, n: nat)
    requires n <= |blocks| && used <= budget
    ensures used + Bytes(blocks[..n]) <= budget <==> n <= Kept(blocks, used, budget)
    decreases n
  {
    if n > 0 {
      BytesCons(blocks[..n]);
      assert blocks[..n][1..] == blocks[1..][..n - 1];
      if used + |blocks[0]| <= budget {
        KeptIsLongest(blocks[1..], used + |blocks[0]|, budget, n - 1);
      }
    }
  }

  lemma {:induction false} JoinLength(blocks: seq<string>)
    ensures |JoinLines(blocks)| == if blocks == [] then 0 else Bytes(blocks) + |blocks| - 1
  {
    if |blocks| > 1 {
      JoinLength(blocks[..|blocks| - 1]);
    } else if |blocks| == 1 {
      assert blocks[..0] == [];
    }
  }

  // ---------- The notice ----------

  lemma {:induction false} ReplaceBehind(a: string, s: string, p: string, r: string)
    requires p != [] && Free(a, p[0])
    ensures ReplaceAll(a + s, p, r) == a + ReplaceAll(s, p, r)
  {
    if a == [] {
      assert a + s == s;
    } else {
      assert (a + s)[1..] == a[1..] + s && (a + s)[0] == a[0];
      ReplaceBehind(a[1..], s, p, r);
    }
  }

  lemma ReplaceOnce(a: string, p: string, b: string, r: string)
    requires p != [] && Free(a, p[0])
    ensures ReplaceAll(a + (p + b), p, r) == a + (r + ReplaceAll(b, p, r))
  {
    ReplaceBehind(a, p + b, p, r);
    assert (p + b)[|p|..] == b;
  }

  lemma ReplaceNone(a: string, p: string, r: string)
    requires p != [] && Free(a, p[0])
    ensures ReplaceAll(a, p, r) == a
  {
    ReplaceBehind(a, [], p, r);
    assert a + [] == a;
  }

  lemma NoticeParts()
    ensures Free(OPENING, '{') && Free(MIDDLE, '{') && Free(CLOSING, '{')
    ensures |TRUNCATION_NOTICE| == NOTICE_BYTES && |OPENING| + |MIDDLE| + |CLOSING| == 48
  {
  }

  /** Two placeholders that differ in their second character. */
  predicate Placeholders(p: string, q: string) {
    |p| > 1 && |q| > 1 && p[0] == q[0] == '{' && p[1] != q[1] && Free(q[1..], '{')
  }

  lemma OtherPlaceholder(p: string, q: string, b: string, r: string)
    requires Placeholders(p, q) && Free(b, '{')
    ensures ReplaceAll(q + b, p, r) == q + b
  {
    var s := q + b;
    assert s[1] != p[1];
    assert s[1..] == q[1..] + b;
    ReplaceNone(s[1..], p, r);
    assert [s[0]] + s[1..] == s;
  }

  lemma {:induction false} DigitsFree(s: string)
    requires AllDigits(s)
    ensures Free(s, '{')
  {
    if s != [] {
      DigitsFree(s[1..]);
      assert s == [s[0]] + s[1..];
    }
  }

  /** Replacing the two placeholders of the template, one after the other, gives the notice. */
  lemma {:induction false} NoticeIsFilledIn(omitted: nat)
    ensures ReplaceAll(ReplaceAll(TRUNCATION_NOTICE, "{limit}", Decimal(SEGMENT_MAX_BYTES)), "{omitted}", Decimal(omitted)) ==
            Notice(omitted)
  {
    NoticeParts();
    assert "{omitted}"[1..] == "omitted}";
    FillIn(OPENING, "{limit}", Decimal(SEGMENT_MAX_BYTES), MIDDLE, "{omitted}", Decimal(omitted), CLOSING);
  }

  lemma FillIn(a: string, p: string, limit: string, b: string, q: string, n: string, c: string)
    requires Placeholders(p, q) && AllDigits(limit) && Free(a, '{') && Free(b, '{') && Free(c, '{')
    ensures ReplaceAll(ReplaceAll(a + (p + (b + (q + c))), p, limit), q, n) == a + (limit + (b + (n + c)))
  {
    FillFirst(a, p, limit, b, q, c);
    DigitsFree(limit);
    var front := a + limit + b;
    assert a + (limit + (b + (q + c))) == front + (q + c);
    ReplaceOnce(front, q, c, n);
    ReplaceNone(c, q, n);
    assert front + (n + c) == a + (limit + (b + (n + c)));
  }

  lemma FillFirst(a: string, p: string, limit: string, b: string, q: string, c: string)
    requires Placeholders(p, q) && Free(a, '{') && Free(b, '{') && Free(c, '{')
    ensures ReplaceAll(a + (p + (b + (q + c))), p, limit) == a + (limit + (b + (q + c)))
  {
    ReplaceOnce(a, p, b + (q + c), limit);
    ReplaceBehind(b, q + c, p, limit);
    OtherPlaceholder(p, q, c, limit);
  }

  lemma NoticeLength(omitted: nat)
    ensures |Notice(omitted)| == 54 + |Decimal(omitted)|
  {
    NoticeParts();
    DecimalLength(SEGMENT_MAX_BYTES, 6);
    DecimalLength(SEGMENT_MAX_BYTES, 5);
    assert Pow10(1) == 10 && Pow10(2) == 100 && Pow10(3) == 1000 && Pow10(4) == 10000 && Pow10(5) == 100000 && Pow10(6) == 1000000;
  }

  // ---------- Main results ----------

  /** Behind the preamble comes a front of whole turns; a front fits the budget if and only
      if it is part of that one; and the rest is counted, or there is none. */
  lemma {:induction false} DocumentKeepsLongestFront(preamble: string, blocks: seq<string>, n: nat)
    requires n <= |blocks|
    ensures var k, doc := Kept(blocks, 0, Budget(preamble)), Document(preamble, blocks);
            var shown := preamble + JoinLines(blocks[..k]);
            && (Bytes(blocks[..n]) <= Budget(preamble) <==> n <= k)
            && shown <= doc && doc[|shown|..] == Ending(|blocks| - k)
  {
    hide JoinLines, Ending, Bytes;
    KeptIsLongest(blocks, 0, Budget(preamble), n);
  }

  /** Where a block stands: behind those before it, each with a line break. */
  function PlaceOf(blocks: seq<string>, i: nat): nat
    requires i <= |blocks|
  {
    Bytes(blocks[..i]) + i
  }

  lemma {:induction false} JoinedAt(blocks: seq<string>, i: nat)
    requires i < |blocks|
    ensures var at, joined := PlaceOf(blocks, i), JoinLines(blocks);
            && at + |blocks[i]| <= |joined| && joined[at..at + |blocks[i]|] == blocks[i]
            && (i > 0 ==> joined[at - 1] == '\n')
  {
    hide Bytes;
    var n := |blocks| - 1;
    var front := blocks[..n];
    assert blocks[..i] == front[..i];
    JoinLength(front);
    if n == 0 {
      assert blocks[..0] == [];
      NoBytes();
    } else if i < n {
      JoinedAt(front, i);
      InFront(JoinLines(front), "\n" + blocks[n], PlaceOf(blocks, i), |blocks[i]|);
      Associate(JoinLines(front), "\n", blocks[n]);
    } else {
      AppendDrop(JoinLines(front) + "\n", blocks[n], 0);
    }
  }

  lemma NoBytes()
    ensures Bytes([]) == 0
  {
  }

  lemma InFront(a: string, b: string, at: nat, n: nat)
    requires at + n <= |a|
    ensures (a + b)[at..at + n] == a[at..at + n] && (at > 0 ==> (a + b)[at - 1] == a[at - 1])
  {
  }

  /** The kept turns stand behind the preamble unaltered and in order, a line break between
      each two, and nothing else before the notice (`DocumentLength`). */
  lemma DocumentHoldsTurns(preamble: string, blocks: seq<string>, i: nat)
    requires i < Kept(blocks, 0, Budget(preamble))
    ensures var doc, at := Document(preamble, blocks), |preamble| + PlaceOf(blocks, i);
            && preamble <= doc
            && at + |blocks[i]| <= |doc| && doc[at..at + |blocks[i]|] == blocks[i]
            && (i > 0 ==> doc[at - 1] == '\n')
  {
    hide Kept, JoinLines, Ending, Bytes;
    var k := Kept(blocks, 0, Budget(preamble));
    assert blocks[..k][..i] == blocks[..i];
    JoinedAt(blocks[..k], i);
    Placed(preamble, JoinLines(blocks[..k]), Ending(|blocks| - k), PlaceOf(blocks, i), |blocks[i]|);
  }

  lemma Placed(a: string, b: string, c: string, at: nat, n: nat)
    requires at + n <= |b|
    ensures var s := a + b + c;
            && a <= s && s[|a| + at..|a| + at + n] == b[at..at + n]
            && (at > 0 ==> s[|a| + at - 1] == b[at - 1])
  {
  }

  function LineBreaks(k: nat): nat { if k == 0 then 0 else k - 1 }

  /** The size of the document, in the sizes of its parts. */
  function DocumentBytes(preamble: string, blocks: seq<string>): nat {
    var k := Kept(blocks, 0, Budget(preamble));
    |preamble| + Bytes(blocks[..k]) + LineBreaks(k) + NoticeBytes(|blocks| - k)
  }

  function NoticeBytes(omitted: nat): nat { if omitted == 0 then 0 else 54 + |Decimal(omitted)| }

  /** The exact size of every document. */
  lemma DocumentLength(preamble: string, blocks: seq<string>)
    ensures var k := Kept(blocks, 0, Budget(preamble));
            && Bytes(blocks[..k]) <= Budget(preamble)
            && (k == |blocks| <==> Bytes(blocks) <= Budget(preamble))
            && |Document(preamble, blocks)| == DocumentBytes(preamble, blocks)
  {
    KeptFits(blocks, Budget(preamble));
    PartsLength(preamble, blocks, Kept(blocks, 0, Budget(preamble)));
  }

  lemma PartsLength(preamble: string, blocks: seq<string>, k: nat)
    requires k <= |blocks|
    ensures |preamble + JoinLines(blocks[..k]) + Ending(|blocks| - k)| ==
            |preamble| + Bytes(blocks[..k]) + LineBreaks(k) + NoticeBytes(|blocks| - k)
  {
    DocumentParts(preamble, JoinLines(blocks[..k]), |blocks| - k);
    JoinLength(blocks[..k]);
  }

  lemma KeptFits(blocks: seq<string>, budget: nat)
    ensures var k := Kept(blocks, 0, budget);
            Bytes(blocks[..k]) <= budget && (k == |blocks| <==> Bytes(blocks) <= budget)
  {
    KeptIsLongest(blocks, 0, budget, Kept(blocks, 0, budget));
    KeptIsLongest(blocks, 0, budget, |blocks|);
    assert blocks[..|blocks|] == blocks;
  }

  lemma DocumentParts(preamble: string, body: string, omitted: nat)
    ensures |preamble + body + Ending(omitted)| == |preamble| + |body| + NoticeBytes(omitted)
  {
    if omitted > 0 {
      NoticeLength(omitted);
    }
  }

  predicate ReserveFits(preamble: string) {
    |preamble| + NOTICE_BYTES + PER_TURN_OVERHEAD_BYTES <= SEGMENT_MAX_BYTES
  }

  /** The comment on the budget says that the document stays under the cap.  For every
      preamble and all turns, this is when it does.  The line breaks between the turns are
      not charged to the budget: they eat the slack of the reserve, 129 bytes if all turns
      fit and at most 75 if some are left out.  Without room for the reserve, only empty
      turns are kept, and preamble and notice alone decide. */
  lemma WithinCapIff(preamble: string, blocks: seq<string>)
    ensures var budget := Budget(preamble);
            var k := Kept(blocks, 0, budget);
            |Document(preamble, blocks)| <= SEGMENT_MAX_BYTES <==>
            if !ReserveFits(preamble) then
              |preamble| + LineBreaks(k) + NoticeBytes(|blocks| - k) <= SEGMENT_MAX_BYTES
            else if Bytes(blocks) <= budget then Bytes(blocks) + |blocks| <= budget + 129
            else if k == 0 then |Decimal(|blocks|)| <= 74 + budget
            else k + |Decimal(|blocks| - k)| <= 75 + (budget - Bytes(blocks[..k]))
  {
    hide Document, Decimal;
    var k := Kept(blocks, 0, Budget(preamble));
    DocumentLength(preamble, blocks);
    assert blocks[..|blocks|] == blocks && blocks[..0] == [];
    CapIff(|preamble|, Budget(preamble), Bytes(blocks), Bytes(blocks[..k]), |blocks|, k, |Decimal(|blocks| - k)|);
  }

  lemma CapIff(preamble: nat, budget: nat, total: nat, kept: nat, n: nat, k: nat, digits: nat)
    requires k <= n && kept <= budget && (k == 0 ==> kept == 0) && (k == n ==> kept == total) && (k == n <==> total <= budget)
    requires var reserve := preamble + NOTICE_BYTES + PER_TURN_OVERHEAD_BYTES;
             budget == if reserve > SEGMENT_MAX_BYTES then 0 else SEGMENT_MAX_BYTES - reserve
    ensures var notice := if k == n then 0 else 54 + digits;
            preamble + kept + LineBreaks(k) + notice <= SEGMENT_MAX_BYTES <==>
            if preamble + NOTICE_BYTES + PER_TURN_OVERHEAD_BYTES > SEGMENT_MAX_BYTES then
              preamble + LineBreaks(k) + notice <= SEGMENT_MAX_BYTES
            else if total <= budget then total + n <= budget + 129
            else if k == 0 then digits <= 74 + budget
            else k + digits <= 75 + (budget - kept)
  {
  }

  /** If the reserve fits and the number left out has at most 20 digits, the document
      exceeds the cap by less than one byte per kept turn. */
  lemma DocumentSize(preamble: string, blocks: seq<string>)
    requires ReserveFits(preamble) && |blocks| < TEN_TO_THE_20
    ensures |Document(preamble, blocks)| <= SEGMENT_MAX_BYTES + Kept(blocks, 0, Budget(preamble))
  {
    hide Document, Decimal, Bytes;
    var k := Kept(blocks, 0, Budget(preamble));
    DocumentLength(preamble, blocks);
    OneByteATurn(|preamble|, Bytes(blocks[..k]), |blocks|, k);
  }

  const TEN_TO_THE_20: nat := 100_000_000_000_000_000_000

  lemma TwentyDigits(n: nat)
    requires n < TEN_TO_THE_20
    ensures |Decimal(n)| <= 20
  {
    DecimalLength(n, 20);
    assert Pow10(2) == 100 && Pow10(4) == 10_000 && Pow10(6) == 1_000_000 && Pow10(8) == 100_000_000;
    assert Pow10(10) == 10_000_000_000 && Pow10(12) == 1_000_000_000_000 && Pow10(14) == 100_000_000_000_000;
    assert Pow10(16) == 10_000_000_000_000_000 && Pow10(18) == 1_000_000_000_000_000_000;
  }

  lemma NoticeIsShort(omitted: nat)
    requires omitted < TEN_TO_THE_20
    ensures NoticeBytes(omitted) <= 74
  {
    if omitted > 0 { TwentyDigits(omitted); }
  }

  lemma OneByteATurn(preamble: nat, kept: nat, n: nat, k: nat)
    requires preamble + NOTICE_BYTES + PER_TURN_OVERHEAD_BYTES + kept <= SEGMENT_MAX_BYTES && k <= n < TEN_TO_THE_20
    ensures preamble + kept + LineBreaks(k) + NoticeBytes(n - k) <= SEGMENT_MAX_BYTES + k
  {
    NoticeIsShort(n - k);
  }

  // ---------- Turns that exceed the cap ----------

  predicate ShortTurns(blocks: seq<string>) {
    forall k | 0 <= k < |blocks| :: 19 <= |blocks[k]| <= 40
  }

  lemma {:induction false} BytesOfShortTurns(blocks: seq<string>)
    requires ShortTurns(blocks)
    ensures 19 * |blocks| <= Bytes(blocks) <= 40 * |blocks|
  {
    if blocks != [] {
      BytesOfShortTurns(blocks[..|blocks| - 1]);
    }
  }

  /** Any turns of 19 to 40 bytes, as long as there are enough of them to fill the budget. */
  lemma CapIsExceeded(preamble: string, blocks: seq<string>)
    requires ReserveFits(preamble) && Budget(preamble) >= 4680
    requires ShortTurns(blocks) && 19 * |blocks| > Budget(preamble)
    ensures |Document(preamble, blocks)| > SEGMENT_MAX_BYTES
  {
    var k := Kept(blocks, 0, Budget(preamble));
    BytesOfShortTurns(blocks);
    assert blocks[..|blocks|] == blocks;
    KeptIsLongest(blocks, 0, Budget(preamble), |blocks|);
    NextDoesNotFit(blocks, Budget(preamble));
    BytesOfShortTurns(blocks[..k]);
    FullDocument(preamble, blocks, |blocks[k]|);
  }

  lemma FullDocument(preamble: string, blocks: seq<string>, next: nat)
    requires ReserveFits(preamble) && Budget(preamble) >= 4680
    requires var k := Kept(blocks, 0, Budget(preamble));
             k < |blocks| && Bytes(blocks[..k]) + next > Budget(preamble) && next <= 40 && Bytes(blocks[..k]) <= 40 * k
    ensures |Document(preamble, blocks)| > SEGMENT_MAX_BYTES
  {
    var k := Kept(blocks, 0, Budget(preamble));
    DocumentLength(preamble, blocks);
    FullOfShortTurns(|preamble|, Bytes(blocks[..k]), next, k);
  }

  lemma FullOfShortTurns(preamble: nat, kept: nat, next: nat, k: nat)
    requires preamble + NOTICE_BYTES + PER_TURN_OVERHEAD_BYTES + 4680 <= SEGMENT_MAX_BYTES
    requires preamble + NOTICE_BYTES + PER_TURN_OVERHEAD_BYTES + kept + next > SEGMENT_MAX_BYTES
    requires next <= 40 && kept <= 40 * k
    ensures k > 116 && preamble + kept + k + 54 > SEGMENT_MAX_BYTES
  {
  }

  lemma NextDoesNotFit(blocks: seq<string>, budget: nat)
    ensures var k := Kept(blocks, 0, budget); k < |blocks| ==> Bytes(blocks[..k]) + |blocks[k]| > budget
  {
    var k := Kept(blocks, 0, budget);
    if k < |blocks| {
      KeptIsLongest(blocks, 0, budget, k + 1);
      assert blocks[..k + 1][..k] == blocks[..k];
    }
  }

  /** What the lowest level of detail prints for a user's turn. */
  function UserSignature(index: nat): string { "### Turn " + Decimal(index) + " (Human)\n" }

  lemma SignatureIsShort(index: nat)
    requires index < TEN_TO_THE_20
    ensures 19 <= |UserSignature(index)| <= 40
  {
    TwentyDigits(index);
  }

  /** Enough user turns at that level, behind a preamble of up to 500,000 bytes. */
  lemma UserTurnsExceedTheCap(preamble: string, n: nat)
    requires |preamble| <= 500_000 && 19 * n > Budget(preamble) && n <= TEN_TO_THE_20
    ensures |Document(preamble, seq(n, i requires 0 <= i < n => UserSignature(i)))| > SEGMENT_MAX_BYTES
  {
    var blocks := seq(n, i requires 0 <= i < n => UserSignature(i));
    forall k | 0 <= k < |blocks| ensures 19 <= |blocks[k]| <= 40 {
      SignatureIsShort(k);
    }
    CapIsExceeded(preamble, blocks);
  }
}
