/** Two ways to rebuild a chat transcript: the agent replays its session as updates, or
the stored history file is mapped to events.  Both feed the same reducer. */
module Hydration {
  import opened Options
  import opened Text

  function TrimJs(s: string): string { Trim(JsWhitespace, s) }

  predicate TrimmedJs(s: string) { Trimmed(JsWhitespace, s) }

  // ---------- Events ----------

  datatype MsgId = UserId(n: nat) | ReplayId(turn: nat) | HistoryId(turn: nat) | LiveId(at: nat)

  /** `Chatter`: the kinds of event that do not touch messages. */
  datatype ChatEvent =
    | User(text: string)
    | AssistantChunk(text: string, messageId: Option<MsgId>)
    | AssistantDone
    | HydrateDone(userTurns: nat)
    | Chatter

  // ---------- What counts as noise ----------

  /** Length in UTF-16 units. */
  function Utf16Length(s: string): nat {
    if s == [] then 0 else (if s[0] as int > 0xFFFF then 2 else 1) + Utf16Length(s[1..])
  }

  predicate ReplayNoise(text: string) {
    var t := TrimJs(text);
    t == [] || "<local-command" <= t || "<command-name>" <= t || "<command-message>" <= t
  }

  predicate ShortReminder(text: string) {
    var t := TrimJs(text);
    Contains(t, "<system-reminder>") && Utf16Length(t) < 200
  }

  predicate HistoryNoise(text: string) {
    var t := TrimJs(text);
    if t == [] then true
    else if "<local-command" <= t then true
    else if "<command-name>" <= t || "<command-message>" <= t then true
    else Contains(t, "<system-reminder>") && Utf16Length(t) < 200
  }

  // ---------- Producing events ----------

  datatype Producer = Producer(buf: string, turn: nat, userTurns: nat, events: seq<ChatEvent>)

  const Idle: Producer := Producer("", 0, 0, [])

  /** Emit the assistant's text, trimmed, under the id of the turn; nothing if it is blank. */
  function Close(p: Producer, id: MsgId): Producer {
    if TrimJs(p.buf) == [] then p
    else p.(buf := "", events := p.events + [AssistantChunk(TrimJs(p.buf), Some(id)), AssistantDone])
  }

  function NextUser(p: Producer, text: string): Producer {
    p.(turn := p.turn + 1, userTurns := p.userTurns + 1, events := p.events + [User(text)])
  }

  /** Updates of the replay; those of a child session have `fromChild`. */
  datatype Update =
    | UserMessageChunk(text: string, fromChild: bool)
    | AgentMessageChunk(text: string, fromChild: bool)
    | OtherUpdate(emits: bool)

  function Replay(p: Producer, u: Update): Producer {
    match u
    case UserMessageChunk(raw, fromChild) =>
      var text := TrimJs(raw);
      if fromChild || ReplayNoise(text) then p
      else NextUser(Close(p, ReplayId(p.turn)).(buf := ""), text)
    case AgentMessageChunk(text, fromChild) =>
      if fromChild || text == "" then p
      else p.(buf := p.buf + text, events := p.events + [AssistantChunk(p.buf + text, Some(ReplayId(p.turn)))])
    case OtherUpdate(emits) => if emits then p.(events := p.events + [Chatter]) else p
  }

  function ReplayAll(updates: seq<Update>): Producer {
    if updates == [] then Idle else Replay(ReplayAll(updates[..|updates| - 1]), updates[|updates| - 1])
  }

  function ReplayEvents(updates: seq<Update>): seq<ChatEvent> {
    var p := ReplayAll(updates);
    Close(p, ReplayId(p.turn)).events + [HydrateDone(p.userTurns)]
  }

  /** Lines of the history file. */
  datatype Line = NotJson | UserLine(text: string) | AssistantLine(text: string) | OtherLine

  function Recall(p: Producer, line: Line): Producer {
    match line
    case UserLine(raw) =>
      var text := TrimJs(raw);
      if HistoryNoise(text) then p else NextUser(Close(p, HistoryId(p.turn)), text)
    case AssistantLine(raw) => if TrimJs(raw) == [] then p else p.(buf := p.buf + TrimJs(raw))
    case _ => p
  }

  function RecallAll(lines: seq<Line>): Producer {
    if lines == [] then Idle else Recall(RecallAll(lines[..|lines| - 1]), lines[|lines| - 1])
  }

  function HistoryEvents(lines: seq<Line>): seq<ChatEvent> {
    var p := RecallAll(lines);
    Close(p, HistoryId(p.turn)).events
  }

  /** The replay half of the agent's session mapper. */
  class ReplayMapper {
    var replayAssistantBuf: string
    var replayTurn: nat
    var replayUserTurns: nat
    var events: seq<ChatEvent>

    function Now(): Producer
      reads this
    {
      Producer(replayAssistantBuf, replayTurn, replayUserTurns, events)
    }

    constructor ()
      ensures Now() == Idle
    {
      replayAssistantBuf, replayTurn, replayUserTurns, events := "", 0, 0, [];
    }

    method FinalizeReplayAssistant()
      modifies this
      ensures Now() == Close(old(Now()), ReplayId(old(replayTurn)))
    {
      var text := TrimJs(replayAssistantBuf);
      if text == [] { return; }
      events := events + [AssistantChunk(text, Some(ReplayId(replayTurn)))];
      events := events + [AssistantDone];
      replayAssistantBuf := "";
    }

    method MapSessionUpdate(update: Update)
      modifies this
      ensures Now() == Replay(old(Now()), update)
    {
      match update {
        case UserMessageChunk(raw, fromChild) =>
          if fromChild { return; }
          var text := TrimJs(raw);
          if ReplayNoise(text) { return; }
          FinalizeReplayAssistant();
          replayTurn := replayTurn + 1;
          replayUserTurns := replayUserTurns + 1;
          replayAssistantBuf := "";
          events := events + [User(text)];
        case AgentMessageChunk(text, fromChild) =>
          if fromChild || text == "" { return; }
          replayAssistantBuf := replayAssistantBuf + text;
          events := events + [AssistantChunk(replayAssistantBuf, Some(ReplayId(replayTurn)))];
        case OtherUpdate(emits) =>
          if emits { events := events + [Chatter]; }
      }
    }
  }

  /** Load a session: replay all updates, then close the last turn. */
  method LoadSession(updates: seq<Update>) returns (events: seq<ChatEvent>, userTurns: nat)
    ensures events == ReplayEvents(updates) && userTurns == ReplayAll(updates).userTurns
  {
    var mapper := new ReplayMapper();
    assert updates[..0] == [];
    for i := 0 to |updates|
      invariant fresh(mapper) && mapper.Now() == ReplayAll(updates[..i])
    {
      assert updates[..i + 1][..i] == updates[..i];
      mapper.MapSessionUpdate(updates[i]);
    }
    assert updates[..|updates|] == updates;
    mapper.FinalizeReplayAssistant();
    return mapper.events + [HydrateDone(mapper.replayUserTurns)], mapper.replayUserTurns;
  }

  method ChatHistoryToEvents(lines: seq<Line>) returns (events: seq<ChatEvent>, userTurns: nat)
    ensures events == HistoryEvents(lines) && userTurns == RecallAll(lines).userTurns
  {
    var turn := 0;
    var assistantBuf := "";
    events, userTurns := [], 0;
    assert lines[..0] == [];
    for i := 0 to |lines|
      invariant Producer(assistantBuf, turn, userTurns, events) == RecallAll(lines[..i])
    {
      assert lines[..i + 1][..i] == lines[..i];
      match lines[i] {
        case UserLine(raw) =>
          var text := TrimJs(raw);
          if !HistoryNoise(text) {
            events, assistantBuf := FlushAssistant(events, assistantBuf, turn);
            userTurns := userTurns + 1;
            turn := turn + 1;
            events := events + [User(text)];
          }
        case AssistantLine(raw) =>
          var text := TrimJs(raw);
          if text != [] { assistantBuf := assistantBuf + text; }
        case _ =>
      }
    }
    assert lines[..|lines|] == lines;
    events, assistantBuf := FlushAssistant(events, assistantBuf, turn);
  }

  method FlushAssistant(events: seq<ChatEvent>, buf: string, turn: nat) returns (events': seq<ChatEvent>, buf': string)
    ensures forall n :: Producer(buf', turn, n, events') == Close(Producer(buf, turn, n, events), HistoryId(turn))
  {
    var text := TrimJs(buf);
    if text == [] { return events, buf; }
    events' := events + [AssistantChunk(text, Some(HistoryId(turn)))];
    events' := events' + [AssistantDone];
    buf' := "";
  }

  // ---------- The reducer ----------

  datatype Role = FromUser | FromAssistant

  datatype ChatMessage = ChatMessage(id: MsgId, role: Role, text: string, live: bool)

  datatype Chat = Chat(messages: seq<ChatMessage>, assistantBuf: string, liveAssistantId: MsgId)

  /** Replace the first message with this id, or append. */
  function UpsertAssistant(messages: seq<ChatMessage>, id: MsgId, text: string, live: bool): seq<ChatMessage> {
    if messages == [] then [ChatMessage(id, FromAssistant, text, live)]
    else if messages[0].id == id then [ChatMessage(id, FromAssistant, text, live)] + messages[1..]
    else [messages[0]] + UpsertAssistant(messages[1..], id, text, live)
  }

  function SettleAll(messages: seq<ChatMessage>): (r: seq<ChatMessage>)
    ensures |r| == |messages|
  {
    if messages == [] then []
    else [if messages[0].role.FromAssistant? then messages[0].(live := false) else messages[0]] + SettleAll(messages[1..])
  }

  /** One event at time `now`. */
  function Reduce(c: Chat, e: ChatEvent, now: nat): Chat {
    match e
    case User(text) => c.(messages := c.messages + [ChatMessage(UserId(|c.messages|), FromUser, text, false)])
    case AssistantChunk(text, Some(id)) =>
      Chat(UpsertAssistant(c.messages, id, text, true), text, id)
    case AssistantChunk(text, None) =>
      c.(messages := UpsertAssistant(c.messages, c.liveAssistantId, c.assistantBuf + text, true),
         assistantBuf := c.assistantBuf + text)
    case AssistantDone => Chat(SettleAll(c.messages), "", LiveId(now))
    case _ => c
  }

  type Clock = nat -> nat

  /** The chat after all events, starting from an empty timeline. */
  function Chatted(events: seq<ChatEvent>, clock: Clock): Chat {
    if events == [] then Chat([], "", LiveId(clock(0)))
    else Reduce(Chatted(events[..|events| - 1], clock), events[|events| - 1], clock(|events|))
  }

  class ChatSession {
    var messages: seq<ChatMessage>
    var assistantBuf: string
    var liveAssistantId: MsgId

    function Now(): Chat
      reads this
    {
      Chat(messages, assistantBuf, liveAssistantId)
    }

    method ApplyChatEvent(event: ChatEvent, now: nat)
      modifies this
      ensures Now() == Reduce(old(Now()), event, now)
    {
      match event {
        case User(text) =>
          messages := messages + [ChatMessage(UserId(|messages|), FromUser, text, false)];
        case AssistantChunk(text, messageId) =>
          var msgId := if messageId.Some? then messageId.value else liveAssistantId;
          if messageId.Some? {
            liveAssistantId := msgId;
            assistantBuf := text;
          } else {
            assistantBuf := assistantBuf + text;
          }
          messages := UpsertAssistant(messages, msgId, if messageId.Some? then text else assistantBuf, true);
        case AssistantDone =>
          messages := SettleAll(messages);
          assistantBuf := "";
          liveAssistantId := LiveId(now);
        case _ =>
      }
    }
  }

  // ---------- Live chunks ----------

  function ReduceAll(c: Chat, events: seq<ChatEvent>, clock: Clock): Chat {
    if events == [] then c
    else Reduce(ReduceAll(c, events[..|events| - 1], clock), events[|events| - 1], clock(|events|))
  }

  /** Pieces of a live answer, without an id of their own. */
  function Chunks(texts: seq<string>): (r: seq<ChatEvent>)
    ensures |r| == |texts| && forall i | 0 <= i < |r| :: r[i] == AssistantChunk(texts[i], None)
  {
    seq(|texts|, i requires 0 <= i < |texts| => AssistantChunk(texts[i], None))
  }

  function Joined(texts: seq<string>): string {
    if texts == [] then "" else Joined(texts[..|texts| - 1]) + texts[|texts| - 1]
  }

  lemma {:induction false} UpsertAtEnd(messages: seq<ChatMessage>, id: MsgId, last: seq<ChatMessage>, text: string, live: bool)
    requires forall m | m in messages :: m.id != id
    requires last == [] || (|last| == 1 && last[0].id == id)
    ensures UpsertAssistant(messages + last, id, text, live) == messages + [ChatMessage(id, FromAssistant, text, live)]
  {
    if messages == [] {
      assert messages + last == last;
      if last != [] { assert last[1..] == []; }
    } else {
      assert (messages + last)[1..] == messages[1..] + last;
      UpsertAtEnd(messages[1..], id, last, text, live);
    }
  }

  /** The chunks of a live answer accumulate in one bubble behind all others, as long as
      its id is new. */
  lemma {:induction false} LiveChunksAccumulate(c: Chat, texts: seq<string>, clock: Clock)
    requires texts != [] && c.assistantBuf == "" && forall m | m in c.messages :: m.id != c.liveAssistantId
    ensures ReduceAll(c, Chunks(texts), clock) ==
            Chat(c.messages + [ChatMessage(c.liveAssistantId, FromAssistant, Joined(texts), true)], Joined(texts), c.liveAssistantId)
  {
    var front := texts[..|texts| - 1];
    assert Chunks(texts)[..|texts| - 1] == Chunks(front);
    if front == [] {
      UpsertAtEnd(c.messages, c.liveAssistantId, [], Joined(texts), true);
      assert c.messages + [] == c.messages && Joined(front) == "";
    } else {
      LiveChunksAccumulate(c, front, clock);
      UpsertAtEnd(c.messages, c.liveAssistantId, [ChatMessage(c.liveAssistantId, FromAssistant, Joined(front), true)], Joined(texts), true);
    }
  }

  /** At the end the bubble is settled with the whole text, and the next answer starts
      empty under a new id. */
  lemma LiveAnswerSettles(c: Chat, texts: seq<string>, clock: Clock)
    requires texts != [] && c.assistantBuf == "" && forall m | m in c.messages :: m.id != c.liveAssistantId
    ensures ReduceAll(c, Chunks(texts) + [AssistantDone], clock) ==
            Chat(SettleAll(c.messages) + [ChatMessage(c.liveAssistantId, FromAssistant, Joined(texts), false)],
                 "", LiveId(clock(|texts| + 1)))
  {
    LiveChunksAccumulate(c, texts, clock);
    var events := Chunks(texts) + [AssistantDone];
    assert events[..|events| - 1] == Chunks(texts);
    SettleAllConcat(c.messages, [ChatMessage(c.liveAssistantId, FromAssistant, Joined(texts), true)]);
    SettleOne(ChatMessage(c.liveAssistantId, FromAssistant, Joined(texts), true));
  }

  lemma {:induction false} SettleAllConcat(a: seq<ChatMessage>, b: seq<ChatMessage>)
    ensures SettleAll(a + b) == SettleAll(a) + SettleAll(b)
  {
    if a == [] {
      assert a + b == b;
    } else {
      assert (a + b)[1..] == a[1..] + b;
      SettleAllConcat(a[1..], b);
    }
  }

  lemma SettleOne(m: ChatMessage)
    ensures SettleAll([m]) == [if m.role.FromAssistant? then m.(live := false) else m]
  {
    assert [m][1..] == [];
  }

  // ---------- The conversation itself ----------

  datatype Record = UserRecord(text: string) | AssistantRecord(text: string)

  datatype Bubble = Bubble(role: Role, text: string)

  function Shown(messages: seq<ChatMessage>): seq<Bubble> {
    if messages == [] then [] else [Bubble(messages[0].role, messages[0].text)] + Shown(messages[1..])
  }

  /** What an update says, if it belongs to the conversation. */
  function RecordOfUpdate(u: Update): seq<Record> {
    match u
    case UserMessageChunk(text, fromChild) => if fromChild then [] else [UserRecord(text)]
    case AgentMessageChunk(text, fromChild) => if fromChild then [] else [AssistantRecord(text)]
    case _ => []
  }

  function RecordOfLine(line: Line): seq<Record> {
    match line
    case UserLine(text) => [UserRecord(text)]
    case AssistantLine(text) => [AssistantRecord(text)]
    case _ => []
  }

  function RecordsOfUpdates(updates: seq<Update>): seq<Record> {
    if updates == [] then [] else RecordsOfUpdates(updates[..|updates| - 1]) + RecordOfUpdate(updates[|updates| - 1])
  }

  function RecordsOfLines(lines: seq<Line>): seq<Record> {
    if lines == [] then [] else RecordsOfLines(lines[..|lines| - 1]) + RecordOfLine(lines[|lines| - 1])
  }

  function MergeOne(m: seq<Record>, r: Record): seq<Record> {
    if r.UserRecord? then m + [r]
    else if r.text == "" then m
    else if m != [] && m[|m| - 1].AssistantRecord? then m[..|m| - 1] + [AssistantRecord(m[|m| - 1].text + r.text)]
    else m + [r]
  }

  /** Adjacent pieces of the assistant's text joined: how a text is split into chunks does
      not matter. */
  function Merge(rs: seq<Record>): seq<Record> {
    if rs == [] then [] else MergeOne(Merge(rs[..|rs| - 1]), rs[|rs| - 1])
  }

  /** The transcript under way: finished bubbles, the assistant's text since, and how many
      turns closed so far had an assistant text of nothing but whitespace. */
  datatype Doc = Doc(done: seq<Bubble>, open: string, users: nat, blanks: nat)

  type Noise = string -> bool

  predicate BlankTurn(open: string) { open != "" && TrimJs(open) == "" }

  /** Close a turn.  With `leftovers`, a text of nothing but whitespace keeps the bubble it
      got while it came in. */
  function CloseDoc(leftovers: bool, d: Doc): Doc {
    if d.open == "" then d
    else if BlankTurn(d.open) then
      Doc(d.done + (if leftovers then [Bubble(FromAssistant, d.open)] else []), "", d.users, d.blanks + 1)
    else Doc(d.done + [Bubble(FromAssistant, TrimJs(d.open))], "", d.users, d.blanks)
  }

  function AddUser(d: Doc, text: string): Doc {
    d.(done := d.done + [Bubble(FromUser, text)], users := d.users + 1)
  }

  function DocStep(leftovers: bool, noise: Noise, d: Doc, r: Record): Doc {
    match r
    case UserRecord(text) => if noise(TrimJs(text)) then d else AddUser(CloseDoc(leftovers, d), TrimJs(text))
    case AssistantRecord(text) => d.(open := d.open + text)
  }

  function DocOf(leftovers: bool, noise: Noise, rs: seq<Record>): Doc {
    if rs == [] then Doc([], "", 0, 0) else DocStep(leftovers, noise, DocOf(leftovers, noise, rs[..|rs| - 1]), rs[|rs| - 1])
  }

  /** A bubble for every user text that is not noise, and between them one bubble for all
      the assistant said there, trimmed, if anything. */
  function Transcript(noise: Noise, rs: seq<Record>): seq<Bubble> { CloseDoc(false, DocOf(false, noise, rs)).done }

  /** Turns in which the assistant said nothing but whitespace. */
  function BlankTurns(noise: Noise, rs: seq<Record>): nat { CloseDoc(false, DocOf(false, noise, rs)).blanks }

  lemma DocSnoc(leftovers: bool, noise: Noise, rs: seq<Record>, r: Record)
    ensures DocOf(leftovers, noise, rs + [r]) == DocStep(leftovers, noise, DocOf(leftovers, noise, rs), r)
  {
    assert (rs + [r])[..|rs|] == rs;
  }

  lemma {:induction false} MergeMeansTheSame(leftovers: bool, noise: Noise, rs: seq<Record>)
    ensures DocOf(leftovers, noise, Merge(rs)) == DocOf(leftovers, noise, rs)
  {
    if rs != [] {
      var m, r := Merge(rs[..|rs| - 1]), rs[|rs| - 1];
      MergeMeansTheSame(leftovers, noise, rs[..|rs| - 1]);
      MergeOneMeansTheSame(leftovers, noise, m, r);
    }
  }

  lemma {:induction false} MergeOneMeansTheSame(leftovers: bool, noise: Noise, m: seq<Record>, r: Record)
    ensures DocOf(leftovers, noise, MergeOne(m, r)) == DocStep(leftovers, noise, DocOf(leftovers, noise, m), r)
  {
    DocSnoc(leftovers, noise, m, r);
    if r.AssistantRecord? {
      if r.text == "" {
        assert DocOf(leftovers, noise, m).open + "" == DocOf(leftovers, noise, m).open;
      } else if m != [] && m[|m| - 1].AssistantRecord? {
        var front, a := m[..|m| - 1], m[|m| - 1];
        assert m == front + [a];
        DocSnoc(leftovers, noise, front, a);
        DocSnoc(leftovers, noise, front, AssistantRecord(a.text + r.text));
        var open := DocOf(leftovers, noise, front).open;
        assert open + a.text + r.text == open + (a.text + r.text);
      }
    }
  }

  /** Leftover bubbles are all that they add, one for each blank turn. */
  lemma {:induction false} LeftoversAdd(noise: Noise, rs: seq<Record>)
    ensures var a, b := DocOf(true, noise, rs), DocOf(false, noise, rs);
            && a.open == b.open && a.users == b.users && a.blanks == b.blanks
            && |a.done| == |b.done| + a.blanks
            && (a.blanks == 0 ==> a.done == b.done)
  {
    if rs != [] {
      LeftoversAdd(noise, rs[..|rs| - 1]);
    }
  }

  // ---------- What the chat shows while events come in ----------

  /** A message with the id of a user or of an earlier turn. */
  predicate PastOne(m: ChatMessage, turn: nat) {
    && (m.role.FromUser? ==> !m.live)
    && match m.id
       case UserId(_) => true
       case ReplayId(k) => k < turn
       case HistoryId(k) => k < turn
       case LiveId(_) => false
  }

  predicate Past(messages: seq<ChatMessage>, turn: nat) {
    messages == [] || (PastOne(messages[0], turn) && Past(messages[1..], turn))
  }

  predicate Settled(messages: seq<ChatMessage>) {
    messages == [] || (!messages[0].live && Settled(messages[1..]))
  }

  lemma {:induction false} PastSnoc(messages: seq<ChatMessage>, m: ChatMessage, turn: nat)
    ensures Past(messages + [m], turn) <==> Past(messages, turn) && PastOne(m, turn)
    ensures Settled(messages + [m]) <==> Settled(messages) && !m.live
    ensures Shown(messages + [m]) == Shown(messages) + [Bubble(m.role, m.text)]
  {
    if messages == [] {
      assert messages + [m] == [m] && [m][1..] == [];
    } else {
      assert (messages + [m])[1..] == messages[1..] + [m];
      PastSnoc(messages[1..], m, turn);
    }
  }

  lemma {:induction false} PastLater(messages: seq<ChatMessage>, turn: nat, later: nat)
    requires Past(messages, turn) && turn <= later
    ensures Past(messages, later)
  {
    if messages != [] {
      PastLater(messages[1..], turn, later);
    }
  }

  /** The id of the current turn is not taken: upserting appends, or replaces the last. */
  lemma {:induction false} UpsertCurrent(past: seq<ChatMessage>, id: MsgId, turn: nat, text: string, last: seq<ChatMessage>)
    requires Past(past, turn) && (id == ReplayId(turn) || id == HistoryId(turn))
    requires last == [] || (|last| == 1 && last[0].id == id)
    ensures UpsertAssistant(past + last, id, text, true) == past + [ChatMessage(id, FromAssistant, text, true)]
  {
    if past == [] {
      assert past + last == last;
    } else {
      assert (past + last)[1..] == past[1..] + last;
      UpsertCurrent(past[1..], id, turn, text, last);
    }
  }

  /** Settling changes nothing but the flags. */
  lemma {:induction false} SettlingSettles(messages: seq<ChatMessage>, turn: nat)
    requires Past(messages, turn)
    ensures var r := SettleAll(messages); Settled(r) && Past(r, turn) && Shown(r) == Shown(messages)
  {
    if messages != [] {
      SettlingSettles(messages[1..], turn);
      assert SettleAll(messages)[1..] == SettleAll(messages[1..]);
    }
  }

  lemma ChattedSnoc(events: seq<ChatEvent>, e: ChatEvent, clock: Clock)
    ensures Chatted(events + [e], clock) == Reduce(Chatted(events, clock), e, clock(|events| + 1))
  {
    assert (events + [e])[..|events|] == events;
  }

  /** Past messages, and, as long as chunks come in, the bubble of the current turn. */
  ghost predicate Shows(leftovers: bool, p: Producer, id: MsgId, clock: Clock, past: seq<ChatMessage>, current: seq<ChatMessage>, d: Doc) {
    && Chatted(p.events, clock).messages == past + current
    && Past(past, p.turn) && Shown(past) == d.done
    && (d.blanks == 0 ==> Settled(past))
    && (id == ReplayId(p.turn) || id == HistoryId(p.turn))
    && p.buf == d.open && p.turn == p.userTurns == d.users
    && (current == [] || current == [ChatMessage(id, FromAssistant, p.buf, true)])
    && (if leftovers then (current == [] <==> p.buf == "") else current == [] && !BlankTurn(p.buf))
  }

  lemma CloseShows(leftovers: bool, p: Producer, id: MsgId, clock: Clock, past: seq<ChatMessage>, current: seq<ChatMessage>, d: Doc)
    returns (next: seq<ChatMessage>)
    requires Shows(leftovers, p, id, clock, past, current, d)
    ensures Chatted(Close(p, id).events, clock).messages == next
    ensures Past(next, p.turn + 1) && Shown(next) == CloseDoc(leftovers, d).done
    ensures CloseDoc(leftovers, d).blanks == 0 ==> Settled(next)
  {
    PastLater(past, p.turn, p.turn + 1);
    if TrimJs(p.buf) != "" {
      next := CloseShown(p, id, clock, past, current);
    } else {
      next := past + current;
      if current == [] {
        assert past + [] == past;
      } else {
        PastSnoc(past, current[0], p.turn + 1);
      }
    }
  }

  /** A text that is not blank replaces its bubble, and everything is settled. */
  lemma CloseShown(p: Producer, id: MsgId, clock: Clock, past: seq<ChatMessage>, current: seq<ChatMessage>) returns (next: seq<ChatMessage>)
    requires Chatted(p.events, clock).messages == past + current && Past(past, p.turn) && TrimJs(p.buf) != ""
    requires (id == ReplayId(p.turn) || id == HistoryId(p.turn)) && (current == [] || (|current| == 1 && current[0].id == id))
    ensures Chatted(Close(p, id).events, clock).messages == next
    ensures Past(next, p.turn + 1) && Settled(next) && Shown(next) == Shown(past) + [Bubble(FromAssistant, TrimJs(p.buf))]
  {
    var text := TrimJs(p.buf);
    var chunk := AssistantChunk(text, Some(id));
    var m := ChatMessage(id, FromAssistant, text, true);
    ChattedSnoc(p.events, chunk, clock);
    ChattedSnoc(p.events + [chunk], AssistantDone, clock);
    assert p.events + [chunk] + [AssistantDone] == p.events + [chunk, AssistantDone];
    UpsertCurrent(past, id, p.turn, text, current);
    PastLater(past, p.turn, p.turn + 1);
    PastSnoc(past, m, p.turn + 1);
    SettlingSettles(past + [m], p.turn + 1);
    next := SettleAll(past + [m]);
  }

  lemma UserShows(leftovers: bool, p: Producer, id: MsgId, id': MsgId, clock: Clock, past: seq<ChatMessage>, current: seq<ChatMessage>, d: Doc, text: string)
    returns (next: seq<ChatMessage>)
    requires Shows(leftovers, p, id, clock, past, current, d) && (id' == ReplayId(p.turn + 1) || id' == HistoryId(p.turn + 1))
    ensures Shows(leftovers, NextUser(Close(p, id).(buf := ""), text), id', clock, next, [], AddUser(CloseDoc(leftovers, d), text))
  {
    var closed := CloseShows(leftovers, p, id, clock, past, current, d);
    next := UserShowsBehind(leftovers, Close(p, id), id', clock, closed, CloseDoc(leftovers, d), text);
  }

  lemma UserShowsBehind(leftovers: bool, p: Producer, id: MsgId, clock: Clock, closed: seq<ChatMessage>, d: Doc, text: string)
    returns (next: seq<ChatMessage>)
    requires Chatted(p.events, clock).messages == closed && Past(closed, p.turn + 1) && Shown(closed) == d.done
    requires (d.blanks == 0 ==> Settled(closed)) && d.open == "" && p.turn == p.userTurns == d.users
    requires id == ReplayId(p.turn + 1) || id == HistoryId(p.turn + 1)
    ensures Shows(leftovers, NextUser(p.(buf := ""), text), id, clock, next, [], AddUser(d, text))
  {
    next := UserAdded(p, clock, closed, p.turn + 1, text);
    assert next + [] == next;
  }

  lemma UserAdded(p: Producer, clock: Clock, closed: seq<ChatMessage>, turn: nat, text: string) returns (next: seq<ChatMessage>)
    requires Chatted(p.events, clock).messages == closed && Past(closed, turn)
    ensures Chatted(NextUser(p, text).events, clock).messages == next && Past(next, turn)
    ensures Shown(next) == Shown(closed) + [Bubble(FromUser, text)] && (Settled(closed) ==> Settled(next))
  {
    var m := ChatMessage(UserId(|closed|), FromUser, text, false);
    next := closed + [m];
    ChattedSnoc(p.events, User(text), clock);
    PastSnoc(closed, m, turn);
  }

  lemma SaidShows(p: Producer, clock: Clock, past: seq<ChatMessage>, current: seq<ChatMessage>, d: Doc, text: string)
    returns (next: seq<ChatMessage>)
    requires Shows(true, p, ReplayId(p.turn), clock, past, current, d) && text != ""
    ensures Shows(true, Replay(p, AgentMessageChunk(text, false)), ReplayId(p.turn), clock, past, next, d.(open := d.open + text))
  {
    ChattedSnoc(p.events, AssistantChunk(p.buf + text, Some(ReplayId(p.turn))), clock);
    UpsertCurrent(past, ReplayId(p.turn), p.turn, p.buf + text, current);
    next := [ChatMessage(ReplayId(p.turn), FromAssistant, p.buf + text, true)];
  }

  lemma UpdateShows(p: Producer, u: Update, clock: Clock, past: seq<ChatMessage>, current: seq<ChatMessage>, d: Doc)
    returns (past': seq<ChatMessage>, current': seq<ChatMessage>)
    requires Shows(true, p, ReplayId(p.turn), clock, past, current, d)
    ensures var p', r := Replay(p, u), RecordOfUpdate(u);
            Shows(true, p', ReplayId(p'.turn), clock, past', current', if r == [] then d else DocStep(true, ReplayNoise, d, r[0]))
  {
    past', current' := past, current;
    match u
    case OtherUpdate(_) => ChattedSnoc(p.events, Chatter, clock);
    case UserMessageChunk(raw, fromChild) =>
      if !fromChild && !ReplayNoise(TrimJs(raw)) {
        past' := UserShows(true, p, ReplayId(p.turn), ReplayId(p.turn + 1), clock, past, current, d, TrimJs(raw));
        current' := [];
      }
    case AgentMessageChunk(text, fromChild) =>
      if !fromChild && text == "" {
        assert d.open + "" == d.open;
      } else if !fromChild {
        current' := SaidShows(p, clock, past, current, d, text);
      }
  }

  lemma {:induction false} ReplayShows(updates: seq<Update>, clock: Clock) returns (past: seq<ChatMessage>, current: seq<ChatMessage>)
    ensures var p := ReplayAll(updates);
            Shows(true, p, ReplayId(p.turn), clock, past, current, DocOf(true, ReplayNoise, RecordsOfUpdates(updates)))
  {
    if updates == [] {
      past, current := [], [];
    } else {
      var front, u := updates[..|updates| - 1], updates[|updates| - 1];
      var rs, r := RecordsOfUpdates(front), RecordOfUpdate(u);
      if r == [] {
        assert rs + [] == rs;
      } else {
        assert r == [r[0]];
        DocSnoc(true, ReplayNoise, rs, r[0]);
      }
      past, current := ReplayShows(front, clock);
      past, current := UpdateShows(ReplayAll(front), u, clock, past, current, DocOf(true, ReplayNoise, rs));
    }
  }

  /** The records as the history mapper reads them: every assistant text trimmed. */
  function TrimAll(rs: seq<Record>): seq<Record> {
    if rs == [] then []
    else
      var r := rs[|rs| - 1];
      TrimAll(rs[..|rs| - 1]) + [if r.AssistantRecord? then AssistantRecord(TrimJs(r.text)) else r]
  }

  lemma TrimAllSnoc(rs: seq<Record>, r: Record)
    ensures TrimAll(rs + [r]) == TrimAll(rs) + [if r.AssistantRecord? then AssistantRecord(TrimJs(r.text)) else r]
  {
    assert (rs + [r])[..|rs|] == rs;
  }

  lemma {:induction false} HistoryShows(lines: seq<Line>, clock: Clock) returns (past: seq<ChatMessage>)
    ensures var p := RecallAll(lines);
            Shows(false, p, HistoryId(p.turn), clock, past, [], DocOf(false, HistoryNoise, TrimAll(RecordsOfLines(lines))))
  {
    if lines == [] {
      past := [];
    } else {
      var front, line := lines[..|lines| - 1], lines[|lines| - 1];
      past := HistoryShows(front, clock);
      past := LineShows(RecallAll(front), line, clock, past, DocOf(false, HistoryNoise, TrimAll(RecordsOfLines(front))));
      var rs, r := RecordsOfLines(front), RecordOfLine(line);
      if r == [] {
        assert rs + [] == rs;
      } else {
        assert r == [r[0]];
        TrimAllSnoc(rs, r[0]);
        DocSnoc(false, HistoryNoise, TrimAll(rs), if r[0].AssistantRecord? then AssistantRecord(TrimJs(r[0].text)) else r[0]);
      }
    }
  }

  lemma LineShows(p: Producer, line: Line, clock: Clock, past: seq<ChatMessage>, d: Doc) returns (past': seq<ChatMessage>)
    requires Shows(false, p, HistoryId(p.turn), clock, past, [], d)
    ensures var p' := Recall(p, line);
            Shows(false, p', HistoryId(p'.turn), clock, past', [],
                  match line
                  case UserLine(text) => DocStep(false, HistoryNoise, d, UserRecord(text))
                  case AssistantLine(text) => DocStep(false, HistoryNoise, d, AssistantRecord(TrimJs(text)))
                  case _ => d)
  {
    past' := past;
    match line
    case UserLine(raw) =>
      if !HistoryNoise(TrimJs(raw)) {
        past' := UserShows(false, p, HistoryId(p.turn), HistoryId(p.turn + 1), clock, past, [], d, TrimJs(raw));
      }
    case AssistantLine(raw) =>
      assert d.open + "" == d.open;
      TrimIsTrimmed(JsWhitespace, raw);
      if TrimJs(raw) != "" {
        NotBlankWith(p.buf, TrimJs(raw));
      }
    case _ =>
  }

  lemma NotBlankWith(a: string, b: string)
    requires b != "" && TrimmedJs(b)
    ensures !BlankTurn(a + b)
  {
    BlankTrims(JsWhitespace, a + b);
    BlankSplit(JsWhitespace, a, b);
  }

  // ---------- Main results ----------

  /** However the assistant's text is cut into chunks, the replay shows the transcript, and
      a leftover bubble for every blank turn: it is the transcript if and only if there is
      no blank turn.  Then every bubble is settled.  The user turns reported are always
      the number of user bubbles. */
  lemma {:induction false} ReplayRebuildsIff(updates: seq<Update>, clock: Clock)
    ensures var rs, c := RecordsOfUpdates(updates), Chatted(ReplayEvents(updates), clock);
            && |c.messages| == |Transcript(ReplayNoise, rs)| + BlankTurns(ReplayNoise, rs)
            && (Shown(c.messages) == Transcript(ReplayNoise, rs) <==> BlankTurns(ReplayNoise, rs) == 0)
            && (BlankTurns(ReplayNoise, rs) == 0 ==> forall m | m in c.messages :: !m.live)
            && ReplayAll(updates).userTurns == DocOf(false, ReplayNoise, rs).users
  {
    var p, rs := ReplayAll(updates), RecordsOfUpdates(updates);
    var past, current := ReplayShows(updates, clock);
    past := CloseShows(true, p, ReplayId(p.turn), clock, past, current, DocOf(true, ReplayNoise, rs));
    ChattedSnoc(Close(p, ReplayId(p.turn)).events, HydrateDone(p.userTurns), clock);
    LeftoversAdd(ReplayNoise, rs);
    ShownLength(past);
    if BlankTurns(ReplayNoise, rs) == 0 {
      SettledMeans(past);
    }
  }

  /** The history file shows exactly the transcript of its trimmed texts, with every bubble
      settled, and reports the number of user bubbles. */
  lemma {:induction false} HistoryRebuilds(lines: seq<Line>, clock: Clock)
    ensures var rs, c := TrimAll(RecordsOfLines(lines)), Chatted(HistoryEvents(lines), clock);
            && Shown(c.messages) == Transcript(HistoryNoise, rs)
            && (forall m | m in c.messages :: !m.live)
            && RecallAll(lines).userTurns == DocOf(false, HistoryNoise, rs).users
  {
    var p, rs := RecallAll(lines), TrimAll(RecordsOfLines(lines));
    var past := HistoryShows(lines, clock);
    past := CloseShows(false, p, HistoryId(p.turn), clock, past, [], DocOf(false, HistoryNoise, rs));
    NoBlanks(HistoryNoise, RecordsOfLines(lines));
    SettledMeans(past);
  }

  lemma {:induction false} ShownLength(messages: seq<ChatMessage>)
    ensures |Shown(messages)| == |messages|
  {
    if messages != [] {
      ShownLength(messages[1..]);
    }
  }

  lemma {:induction false} SettledMeans(messages: seq<ChatMessage>)
    requires Settled(messages)
    ensures forall m | m in messages :: !m.live
  {
    if messages != [] {
      SettledMeans(messages[1..]);
      assert messages == [messages[0]] + messages[1..];
    }
  }

  lemma {:induction false} NoBlanks(noise: Noise, rs: seq<Record>)
    ensures var d := DocOf(false, noise, TrimAll(rs)); d.blanks == 0 && !BlankTurn(d.open)
  {
    if rs != [] {
      var front, r := rs[..|rs| - 1], rs[|rs| - 1];
      NoBlanks(noise, front);
      assert rs == front + [r];
      TrimAllSnoc(front, r);
      DocSnoc(false, noise, TrimAll(front), if r.AssistantRecord? then AssistantRecord(TrimJs(r.text)) else r);
      if r.AssistantRecord? {
        var open := DocOf(false, noise, TrimAll(front)).open;
        TrimIsTrimmed(JsWhitespace, r.text);
        assert open + "" == open;
        if TrimJs(r.text) != "" {
          NotBlankWith(open, TrimJs(r.text));
        }
      }
    }
  }

  // ---------- When the two agree ----------

  /** Number of user texts that are short system reminders and not noise to both filters. */
  function Reminders(rs: seq<Record>): nat {
    if rs == [] then 0
    else
      var r := rs[|rs| - 1];
      Reminders(rs[..|rs| - 1]) +
      if r.UserRecord? && ShortReminder(TrimJs(r.text)) && !ReplayNoise(TrimJs(r.text)) then 1 else 0
  }

  /** The two filters differ by the short system reminders alone. */
  lemma FiltersDiffer(text: string)
    ensures HistoryNoise(text) <==> ReplayNoise(text) || ShortReminder(text)
  {
  }

  /** Whitespace between two pieces of text, which trimming each of them would lose. */
  predicate LooseSeam(open: string, text: string) {
    && TrimJs(open) != "" && TrimJs(text) != ""
    && (JsWhitespace(open[|open| - 1]) || JsWhitespace(text[0]))
  }

  /** Number of assistant texts that are set apart by whitespace from what the assistant
      said before them in the same turn. */
  function LooseSeams(noise: Noise, rs: seq<Record>): nat {
    if rs == [] then 0
    else
      var front, r := rs[..|rs| - 1], rs[|rs| - 1];
      LooseSeams(noise, front) + if r.AssistantRecord? && LooseSeam(DocOf(false, noise, front).open, r.text) then 1 else 0
  }

  /** Trimming a turn as a whole, or each text of it: the same exactly without a loose seam. */
  lemma SeamTrims(open: string, text: string)
    ensures |TrimJs(open + text)| >= |TrimJs(open)| + |TrimJs(text)|
    ensures |TrimJs(open + text)| == |TrimJs(open)| + |TrimJs(text)| <==> !LooseSeam(open, text)
    ensures !LooseSeam(open, text) ==> TrimJs(open + text) == TrimJs(open) + TrimJs(text)
  {
    BlankTrims(JsWhitespace, open);
    BlankTrims(JsWhitespace, text);
    if TrimJs(open) == "" {
      TrimStartSkips(JsWhitespace, open, text);
      assert TrimJs(open) + TrimJs(text) == TrimJs(text);
    } else {
      TrimStartStops(JsWhitespace, open, text);
      if TrimJs(text) == "" {
        TrimEndSkips(JsWhitespace, TrimStart(JsWhitespace, open), text);
        assert TrimJs(open) + TrimJs(text) == TrimJs(open);
      } else {
        TrimEndStops(JsWhitespace, TrimStart(JsWhitespace, open), text);
        TrimStartAlone(JsWhitespace, open);
        TrimEndAlone(JsWhitespace, text);
      }
    }
  }

  /** Bytes shown. */
  function Weight(bubbles: seq<Bubble>): nat {
    if bubbles == [] then 0 else Weight(bubbles[..|bubbles| - 1]) + |bubbles[|bubbles| - 1].text|
  }

  lemma WeightSnoc(bubbles: seq<Bubble>, b: Bubble)
    ensures Weight(bubbles + [b]) == Weight(bubbles) + |b.text|
  {
    assert (bubbles + [b])[..|bubbles|] == bubbles;
  }

  /** `a` trims every turn as a whole, `b` every text; `loose` says that there was a loose seam. */
  predicate Alongside(a: Doc, b: Doc, loose: bool) {
    && a.users == b.users && |a.done| == |b.done|
    && Weight(a.done) >= Weight(b.done) && |TrimJs(a.open)| >= |b.open|
    && (!loose <==> Weight(a.done) == Weight(b.done) && |TrimJs(a.open)| == |b.open|)
    && (!loose ==> a.done == b.done && TrimJs(a.open) == b.open)
    && (TrimJs(a.open) == "" <==> b.open == "")
    && TrimmedJs(b.open)
  }

  lemma AlongsideClose(a: Doc, b: Doc, loose: bool)
    requires Alongside(a, b, loose)
    ensures Alongside(CloseDoc(false, a), CloseDoc(false, b), loose)
    ensures CloseDoc(false, a).open == CloseDoc(false, b).open == ""
  {
    TrimIsTrimmed(JsWhitespace, b.open);
    TrimIsTrimmed(JsWhitespace, "");
    assert a.done + [] == a.done;
    WeightSnoc(a.done, Bubble(FromAssistant, TrimJs(a.open)));
    WeightSnoc(b.done, Bubble(FromAssistant, TrimJs(b.open)));
  }

  lemma AlongsideUser(a: Doc, b: Doc, loose: bool, text: string)
    requires Alongside(a, b, loose)
    ensures Alongside(AddUser(a, text), AddUser(b, text), loose)
  {
    WeightSnoc(a.done, Bubble(FromUser, text));
    WeightSnoc(b.done, Bubble(FromUser, text));
  }

  lemma AlongsideText(a: Doc, b: Doc, loose: bool, text: string)
    requires Alongside(a, b, loose)
    ensures Alongside(a.(open := a.open + text), b.(open := b.open + TrimJs(text)), loose || LooseSeam(a.open, text))
  {
    SeamTrims(a.open, text);
    TrimIsTrimmed(JsWhitespace, text);
    assert b.open + "" == b.open;
    if b.open != "" && TrimJs(text) != "" {
      assert (b.open + TrimJs(text))[0] == b.open[0];
    }
  }

  lemma {:induction false} TrimmedAlongside(rs: seq<Record>)
    requires Reminders(rs) == 0
    ensures Alongside(DocOf(false, ReplayNoise, rs), DocOf(false, HistoryNoise, TrimAll(rs)), LooseSeams(ReplayNoise, rs) > 0)
  {
    if rs == [] {
      TrimIsTrimmed(JsWhitespace, "");
    } else {
      var front, r := rs[..|rs| - 1], rs[|rs| - 1];
      TrimmedAlongside(front);
      assert rs == front + [r];
      TrimAllSnoc(front, r);
      var a, b := DocOf(false, ReplayNoise, front), DocOf(false, HistoryNoise, TrimAll(front));
      var loose := LooseSeams(ReplayNoise, front) > 0;
      match r
      case UserRecord(text) =>
        DocSnoc(false, HistoryNoise, TrimAll(front), r);
        FiltersDiffer(TrimJs(text));
        if !ReplayNoise(TrimJs(text)) {
          AlongsideClose(a, b, loose);
          AlongsideUser(CloseDoc(false, a), CloseDoc(false, b), loose, TrimJs(text));
        }
      case AssistantRecord(text) =>
        DocSnoc(false, HistoryNoise, TrimAll(front), AssistantRecord(TrimJs(text)));
        AlongsideText(a, b, loose, text);
    }
  }

  lemma {:induction false} UsersDiffer(rs: seq<Record>)
    ensures DocOf(false, ReplayNoise, rs).users == DocOf(false, HistoryNoise, TrimAll(rs)).users + Reminders(rs)
  {
    if rs != [] {
      var front, r := rs[..|rs| - 1], rs[|rs| - 1];
      UsersDiffer(front);
      assert rs == front + [r];
      TrimAllSnoc(front, r);
      DocSnoc(false, HistoryNoise, TrimAll(front), if r.AssistantRecord? then AssistantRecord(TrimJs(r.text)) else r);
      FiltersDiffer(TrimJs(r.text));
    }
  }

  function UserBubbles(bubbles: seq<Bubble>): nat {
    if bubbles == [] then 0
    else UserBubbles(bubbles[..|bubbles| - 1]) + if bubbles[|bubbles| - 1].role.FromUser? then 1 else 0
  }

  lemma UserBubblesSnoc(bubbles: seq<Bubble>, b: Bubble)
    ensures UserBubbles(bubbles + [b]) == UserBubbles(bubbles) + if b.role.FromUser? then 1 else 0
  {
    assert (bubbles + [b])[..|bubbles|] == bubbles;
  }

  lemma CloseKeepsUsers(leftovers: bool, d: Doc)
    ensures UserBubbles(CloseDoc(leftovers, d).done) == UserBubbles(d.done)
  {
    UserBubblesSnoc(d.done, Bubble(FromAssistant, TrimJs(d.open)));
    UserBubblesSnoc(d.done, Bubble(FromAssistant, d.open));
    assert d.done + [] == d.done;
  }

  lemma StepKeepsUsers(leftovers: bool, noise: Noise, d: Doc, r: Record)
    requires UserBubbles(d.done) == d.users
    ensures UserBubbles(DocStep(leftovers, noise, d, r).done) == DocStep(leftovers, noise, d, r).users
  {
    var c := CloseDoc(leftovers, d);
    CloseKeepsUsers(leftovers, d);
    UserBubblesSnoc(c.done, Bubble(FromUser, TrimJs(r.text)));
  }

  lemma {:induction false} UsersAreBubbles(leftovers: bool, noise: Noise, rs: seq<Record>)
    ensures UserBubbles(DocOf(leftovers, noise, rs).done) == DocOf(leftovers, noise, rs).users
  {
    if rs != [] {
      var front, r := rs[..|rs| - 1], rs[|rs| - 1];
      var d := DocOf(leftovers, noise, front);
      UsersAreBubbles(leftovers, noise, front);
      assert DocOf(leftovers, noise, rs) == DocStep(leftovers, noise, d, r);
      StepKeepsUsers(leftovers, noise, d, r);
    }
  }

  /** What the replay shows, leftovers and all. */
  lemma {:induction false} ReplayShowsDoc(updates: seq<Update>, rs: seq<Record>, clock: Clock)
    requires Merge(RecordsOfUpdates(updates)) == Merge(rs)
    ensures Shown(Chatted(ReplayEvents(updates), clock).messages) == CloseDoc(true, DocOf(true, ReplayNoise, rs)).done
    ensures ReplayAll(updates).userTurns == DocOf(true, ReplayNoise, rs).users
  {
    var p, us := ReplayAll(updates), RecordsOfUpdates(updates);
    var past, current := ReplayShows(updates, clock);
    past := CloseShows(true, p, ReplayId(p.turn), clock, past, current, DocOf(true, ReplayNoise, us));
    ChattedSnoc(Close(p, ReplayId(p.turn)).events, HydrateDone(p.userTurns), clock);
    MergeMeansTheSame(true, ReplayNoise, us);
    MergeMeansTheSame(true, ReplayNoise, rs);
  }

  /** A replay and a history file of the same conversation report the same number of user
      turns if and only if no user text is a short system reminder.  They rebuild the same
      transcript if and only if, besides, in no turn the assistant said nothing but
      whitespace, and no whitespace separates two of its texts within a turn. */
  lemma {:induction false} HydrationsAgreeIff(updates: seq<Update>, lines: seq<Line>, clock: Clock, clock': Clock)
    requires Merge(RecordsOfUpdates(updates)) == Merge(RecordsOfLines(lines))
    ensures var rs := RecordsOfLines(lines);
            && (ReplayAll(updates).userTurns == RecallAll(lines).userTurns <==> Reminders(rs) == 0)
            && (Shown(Chatted(ReplayEvents(updates), clock).messages) == Shown(Chatted(HistoryEvents(lines), clock').messages)
                <==> Reminders(rs) == 0 && BlankTurns(ReplayNoise, rs) == 0 && LooseSeams(ReplayNoise, rs) == 0)
  {
    var rs := RecordsOfLines(lines);
    ReplayShowsDoc(updates, rs, clock);
    HistoryRebuilds(lines, clock');
    LeftoversAdd(ReplayNoise, rs);
    UsersDiffer(rs);
    DocsAgreeIff(rs);
  }

  lemma {:induction false} DocsAgreeIff(rs: seq<Record>)
    ensures CloseDoc(true, DocOf(true, ReplayNoise, rs)).done == Transcript(HistoryNoise, TrimAll(rs)) <==>
            Reminders(rs) == 0 && BlankTurns(ReplayNoise, rs) == 0 && LooseSeams(ReplayNoise, rs) == 0
  {
    var a, b := DocOf(true, ReplayNoise, rs), DocOf(false, HistoryNoise, TrimAll(rs));
    LeftoversAdd(ReplayNoise, rs);
    if Reminders(rs) > 0 {
      UsersDiffer(rs);
      UsersAreBubbles(true, ReplayNoise, rs);
      UsersAreBubbles(false, HistoryNoise, TrimAll(rs));
      CloseKeepsUsers(true, a);
      CloseKeepsUsers(false, b);
    } else {
      TrimmedAlongside(rs);
      AlongsideClose(DocOf(false, ReplayNoise, rs), b, LooseSeams(ReplayNoise, rs) > 0);
    }
  }

  /** The number of user turns reported at the end is the number of user bubbles shown. */
  lemma ReportsUserBubbles(updates: seq<Update>, lines: seq<Line>, clock: Clock)
    ensures var events := ReplayEvents(updates);
            var users := UserBubbles(Shown(Chatted(events, clock).messages));
            events != [] && events[|events| - 1] == HydrateDone(users) && ReplayAll(updates).userTurns == users
    ensures RecallAll(lines).userTurns == UserBubbles(Shown(Chatted(HistoryEvents(lines), clock).messages))
  {
    var rs, ls := RecordsOfUpdates(updates), TrimAll(RecordsOfLines(lines));
    ReplayShowsDoc(updates, rs, clock);
    UsersAreBubbles(true, ReplayNoise, rs);
    CloseKeepsUsers(true, DocOf(true, ReplayNoise, rs));
    HistoryRebuilds(lines, clock);
    UsersAreBubbles(false, HistoryNoise, ls);
    CloseKeepsUsers(false, DocOf(false, HistoryNoise, ls));
  }

  /** Length as JavaScript counts it: two for every character beyond the basic plane. */
  lemma {:induction false} Utf16Counts(a: string, c: char, b: string)
    ensures Utf16Length("") == 0
    ensures Utf16Length(a + ([c] + b)) == Utf16Length(a + b) + if c as int > 0xFFFF then 2 else 1
  {
    if a == [] {
      assert a + ([c] + b) == [c] + b && ([c] + b)[1..] == b && a + b == b;
    } else {
      assert (a + ([c] + b))[1..] == a[1..] + ([c] + b) && (a + b)[1..] == a[1..] + b;
      Utf16Counts(a[1..], c, b);
    }
  }
}
