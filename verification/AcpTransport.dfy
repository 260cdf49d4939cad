/** The JSON-RPC 2.0 transport over a child's stdio: requests are matched with responses
by id, time out, or are rejected when the transport is detached. */
module AcpTransport {
  import opened Options
  import opened Sequences

  type Json = string

  datatype Id = Num(n: int) | Str(s: string)

  /** A parsed line.  `error` is `Some` only for a value that counts as true. */
  datatype Message = Message(id: Option<Id>, name: Option<string>, error: Option<Json>, result: Option<Json>)

  datatype Failure = Remote(error: Json) | TimedOut(name: string, ms: nat) | TransportClosed

  datatype Outcome = Resolved(result: Option<Json>) | Rejected(why: Failure)

  datatype Call = Call(id: nat, name: string, ms: nat)

  datatype Settlement = Settlement(id: nat, outcome: Outcome)

  /** What the peer's own requests and notifications become. */
  datatype Incoming = Request(id: Id, name: string) | Notification(name: string)

  datatype Frame = Frame(id: nat, name: string)

  /** `pending` is in insertion order; `live` says that there is a process with an input. */
  datatype State = State(
    nextId: nat, pending: seq<Call>, timers: set<nat>, closed: bool, live: bool, handlers: bool,
    settled: seq<Settlement>, written: seq<Frame>, delivered: seq<Incoming>)

  datatype Event =
    | Attach(hasInput: bool)
    | Detach
    | SetHandlers
    | Send(name: string, ms: nat)
    | Line(msg: Option<Message>)  // `None`: not JSON
    | Timeout(id: nat)

  const Fresh: State := State(1, [], {}, false, false, false, [], [], [])

  // ---------- The pending table ----------

  function Get(pending: seq<Call>, id: nat): Option<Call> {
    if pending == [] then None
    else if pending[0].id == id then Some(pending[0])
    else Get(pending[1..], id)
  }

  function Without(pending: seq<Call>, id: nat): seq<Call> {
    if pending == [] then []
    else if pending[0].id == id then Without(pending[1..], id)
    else [pending[0]] + Without(pending[1..], id)
  }

  /** Every pending call rejected, in the order sent. */
  function AllClosed(pending: seq<Call>): seq<Settlement> {
    if pending == [] then []
    else [Settlement(pending[0].id, Rejected(TransportClosed))] + AllClosed(pending[1..])
  }

  // ---------- One event ----------

  predicate Open(st: State) { st.live && !st.closed }

  function Settle(st: State, id: nat, outcome: Outcome): State {
    st.(pending := Without(st.pending, id), timers := st.timers - {id},
        settled := st.settled + [Settlement(id, outcome)])
  }

  function Answer(msg: Message): Outcome {
    if msg.error.Some? then Rejected(Remote(msg.error.value)) else Resolved(msg.result)
  }

  function Receive(st: State, msg: Message): State {
    if msg.id.Some? && msg.name.None? then
      match msg.id.value
      case Num(n) => if n >= 0 && Get(st.pending, n).Some? then Settle(st, n, Answer(msg)) else st
      case Str(_) => st
    else if msg.name.Some? && msg.name.value != "" && st.handlers then
      st.(delivered := st.delivered +
                       [if msg.id.Some? then Request(msg.id.value, msg.name.value) else Notification(msg.name.value)])
    else st
  }

  function Detached(st: State): State {
    st.(pending := [], timers := {}, closed := true, live := false, handlers := false,
        settled := st.settled + AllClosed(st.pending))
  }

  function Step(st: State, e: Event): State {
    match e
    case Attach(hasInput) => Detached(st).(closed := false, live := hasInput, handlers := true)
    case Detach => Detached(st)
    case SetHandlers => st.(handlers := true)
    case Send(name, ms) =>
      if Open(st) then
        st.(nextId := st.nextId + 1, pending := st.pending + [Call(st.nextId, name, ms)],
            timers := st.timers + {st.nextId}, written := st.written + [Frame(st.nextId, name)])
      else st
    case Line(msg) => if msg.Some? then Receive(st, msg.value) else st
    case Timeout(id) =>
      if id in st.timers && Get(st.pending, id).Some?
      then Settle(st, id, Rejected(TimedOut(Get(st.pending, id).value.name, Get(st.pending, id).value.ms)))
      else st
  }

  function Run(st: State, events: seq<Event>): State
    decreases |events|
  {
    if events == [] then st else Run(Step(st, events[0]), events[1..])
  }

  // ---------- The transport ----------

  class AcpStdioTransport {
    var nextId: nat
    var pending: seq<Call>
    var timers: set<nat>
    var closed: bool
    var live: bool
    var handlers: bool
    var settled: seq<Settlement>
    var written: seq<Frame>
    var delivered: seq<Incoming>

    function Now(): State
      reads this
    {
      State(nextId, pending, timers, closed, live, handlers, settled, written, delivered)
    }

    constructor ()
      ensures Now() == Fresh
    {
      nextId, pending, timers := 1, [], {};
      closed, live, handlers := false, false, false;
      settled, written, delivered := [], [], [];
    }

    method DetachTransport()
      modifies this
      ensures Now() == Step(old(Now()), Detach)
    {
      closed := true;
      var k := 0;
      while k < |pending|
        invariant k <= |pending| && pending == old(pending) && closed
        invariant settled + AllClosed(pending[k..]) == old(settled) + AllClosed(old(pending))
        invariant nextId == old(nextId) && live == old(live) && handlers == old(handlers)
        invariant written == old(written) && delivered == old(delivered)
      {
        settled := settled + [Settlement(pending[k].id, Rejected(TransportClosed))];
        timers := timers - {pending[k].id};
        assert pending[k..][1..] == pending[k + 1..];
        k := k + 1;
      }
      pending, timers := [], {};
      live, handlers := false, false;
    }

    method AttachTo(hasInput: bool)
      modifies this
      ensures Now() == Step(old(Now()), Attach(hasInput))
    {
      DetachTransport();
      closed, live, handlers := false, hasInput, true;
    }

    /** The id under which the request is pending; none if there is no agent to ask. */
    method SendRequest(name: string, ms: nat) returns (r: Option<nat>)
      modifies this
      ensures Now() == Step(old(Now()), Send(name, ms))
      ensures r == if old(Open(Now())) then Some(old(nextId)) else None
    {
      if !live || closed {
        return None;
      }
      var id := nextId;
      nextId := nextId + 1;
      written := written + [Frame(id, name)];
      timers := timers + {id};
      pending := pending + [Call(id, name, ms)];
      return Some(id);
    }

    method HandleLine(msg: Option<Message>)
      modifies this
      ensures Now() == Step(old(Now()), Line(msg))
    {
      if msg.None? { return; }
      var m := msg.value;
      if m.id.Some? && m.name.None? {
        if m.id.value.Num? && m.id.value.n >= 0 {
          var id := m.id.value.n;
          var p := Get(pending, id);
          if p.Some? {
            pending := Without(pending, id);
            timers := timers - {id};
            if m.error.Some? {
              settled := settled + [Settlement(id, Rejected(Remote(m.error.value)))];
            } else {
              settled := settled + [Settlement(id, Resolved(m.result))];
            }
          }
        }
        return;
      }
      if m.name.Some? && m.name.value != "" {
        if m.id.Some? {
          if handlers { delivered := delivered + [Request(m.id.value, m.name.value)]; }
        } else {
          if handlers { delivered := delivered + [Notification(m.name.value)]; }
        }
      }
    }

    /** The timer of `id` fires. */
    method TimerFires(id: nat)
      requires id in timers
      modifies this
      ensures Now() == Step(old(Now()), Timeout(id))
    {
      var p := Get(pending, id);
      if p.None? { return; }
      pending := Without(pending, id);
      timers := timers - {id};
      settled := settled + [Settlement(id, Rejected(TimedOut(p.value.name, p.value.ms)))];
    }
  }

  // ---------- Conservation ----------

  function Waiting(pending: seq<Call>, id: nat): nat {
    if pending == [] then 0 else (if pending[0].id == id then 1 else 0) + Waiting(pending[1..], id)
  }

  function Settled(log: seq<Settlement>, id: nat): nat {
    if log == [] then 0 else (if log[0].id == id then 1 else 0) + Settled(log[1..], id)
  }

  /** `id` is waiting or settled exactly once if it was ever handed out, and otherwise
      neither; its timer runs exactly while it waits. */
  predicate Account(st: State, id: nat) {
    && st.nextId >= 1
    && Waiting(st.pending, id) + Settled(st.settled, id) == (if 1 <= id < st.nextId then 1 else 0)
    && (id in st.timers <==> Waiting(st.pending, id) == 1)
  }

  lemma {:induction false} WaitingAppend(a: seq<Call>, c: Call, id: nat)
    ensures Waiting(a + [c], id) == Waiting(a, id) + if c.id == id then 1 else 0
  {
    if a == [] {
      assert a + [c] == [c] && [c][1..] == [];
    } else {
      assert (a + [c])[1..] == a[1..] + [c];
      WaitingAppend(a[1..], c, id);
    }
  }

  lemma {:induction false} SettledConcat(a: seq<Settlement>, b: seq<Settlement>, id: nat)
    ensures Settled(a + b, id) == Settled(a, id) + Settled(b, id)
  {
    if a == [] {
      assert a + b == b;
    } else {
      assert (a + b)[1..] == a[1..] + b;
      SettledConcat(a[1..], b, id);
    }
  }

  lemma {:induction false} WaitingWithout(pending: seq<Call>, k: nat, id: nat)
    ensures Waiting(Without(pending, k), id) == if k == id then 0 else Waiting(pending, id)
  {
    if pending != [] {
      WaitingWithout(pending[1..], k, id);
      assert pending[0].id != k ==> Without(pending, k)[1..] == Without(pending[1..], k);
    }
  }

  lemma {:induction false} AllClosedSettles(pending: seq<Call>, id: nat)
    ensures Settled(AllClosed(pending), id) == Waiting(pending, id)
  {
    if pending != [] {
      AllClosedSettles(pending[1..], id);
      assert AllClosed(pending)[1..] == AllClosed(pending[1..]);
    }
  }

  lemma {:induction false} GetIffWaiting(pending: seq<Call>, id: nat)
    ensures Get(pending, id).Some? <==> Waiting(pending, id) > 0
    ensures Get(pending, id).Some? ==> Get(pending, id).value.id == id
  {
    if pending != [] && pending[0].id != id {
      GetIffWaiting(pending[1..], id);
    }
  }

  lemma SettleKeepsAccount(st: State, k: nat, outcome: Outcome, id: nat)
    requires Account(st, id) && Get(st.pending, k).Some?
    ensures Account(Settle(st, k, outcome), id)
  {
    GetIffWaiting(st.pending, k);
    WaitingWithout(st.pending, k, id);
    var one := [Settlement(k, outcome)];
    SettledConcat(st.settled, one, id);
    assert one[1..] == [];
  }

  lemma DetachedKeepsAccount(st: State, id: nat)
    requires Account(st, id)
    ensures Account(Detached(st), id)
  {
    AllClosedSettles(st.pending, id);
    SettledConcat(st.settled, AllClosed(st.pending), id);
  }

  /** What every event keeps. */
  lemma StepKeepsAccount(st: State, e: Event, id: nat)
    requires Account(st, id)
    ensures Account(Step(st, e), id)
  {
    match e
    case Attach(_) => DetachedKeepsAccount(st, id);
    case Detach => DetachedKeepsAccount(st, id);
    case SetHandlers =>
    case Send(name, ms) => WaitingAppend(st.pending, Call(st.nextId, name, ms), id);
    case Line(msg) =>
      if msg.Some? && msg.value.id.Some? && msg.value.name.None? && msg.value.id.value.Num? {
        var n := msg.value.id.value.n;
        if n >= 0 && Get(st.pending, n).Some? {
          SettleKeepsAccount(st, n, Answer(msg.value), id);
        }
      }
    case Timeout(k) =>
      if Get(st.pending, k).Some? {
        var call := Get(st.pending, k).value;
        SettleKeepsAccount(st, k, Rejected(TimedOut(call.name, call.ms)), id);
      }
  }

  /** In every run each id handed out is either pending or settled, and that once. */
  lemma {:induction false} EveryIdIsPendingOrSettledOnce(st: State, events: seq<Event>, id: nat)
    requires Account(st, id)
    ensures Account(Run(st, events), id)
    decreases |events|
  {
    if events != [] {
      StepKeepsAccount(st, events[0], id);
      EveryIdIsPendingOrSettledOnce(Step(st, events[0]), events[1..], id);
    }
  }

  lemma FreshAccount(id: nat)
    ensures Account(Fresh, id)
  {
  }

  // ---------- Ids ----------

  /** The requests that find an agent, read off the events alone. */
  function Accepted(open: bool, events: seq<Event>): seq<string>
    decreases |events|
  {
    if events == [] then []
    else
      match events[0]
      case Attach(hasInput) => Accepted(hasInput, events[1..])
      case Detach => Accepted(false, events[1..])
      case Send(name, _) => if open then [name] + Accepted(open, events[1..]) else Accepted(open, events[1..])
      case _ => Accepted(open, events[1..])
  }

  function Numbered(first: nat, names: seq<string>): seq<Frame>
    decreases |names|
  {
    if names == [] then [] else [Frame(first, names[0])] + Numbered(first + 1, names[1..])
  }

  /** The requests written are the accepted ones, numbered consecutively: no id is used
      twice, not even across a new process, and a refused request uses none. */
  lemma {:induction false} IdsAreConsecutive(st: State, events: seq<Event>)
    ensures var names, end := Accepted(Open(st), events), Run(st, events);
            end.nextId == st.nextId + |names| && end.written == st.written + Numbered(st.nextId, names)
    decreases |events|
  {
    if events != [] {
      var next := Step(st, events[0]);
      IdsAreConsecutive(next, events[1..]);
      StepNumbers(st, events[0]);
      var later := Accepted(Open(next), events[1..]);
      if events[0].Send? && Open(st) {
        NumberedUnfold(st.nextId, events[0].name, later);
        Associate(st.written, [Frame(st.nextId, events[0].name)], Numbered(next.nextId, later));
      } else {
        assert Accepted(Open(st), events) == later;
      }
    }
  }

  lemma StepNumbers(st: State, e: Event)
    ensures var next := Step(st, e);
            if e.Send? && Open(st) then
              Open(next) && next.nextId == st.nextId + 1 && next.written == st.written + [Frame(st.nextId, e.name)]
            else
              && next.nextId == st.nextId && next.written == st.written
              && Open(next) == (if e.Attach? then e.hasInput else Open(st) && !e.Detach?)
  {
  }

  lemma NumberedUnfold(first: nat, name: string, names: seq<string>)
    ensures Numbered(first, [name] + names) == [Frame(first, name)] + Numbered(first + 1, names)
  {
    assert ([name] + names)[1..] == names;
  }

  // ---------- The peer's calls ----------

  /** What the peer asks for with one event: a line that names a method, while there are
      handlers. */
  function AskedBy(handlers: bool, e: Event): seq<Incoming> {
    match e
    case Line(Some(Message(id, Some(name), _, _))) =>
      if name == "" || !handlers then []
      else [if id.Some? then Request(id.value, name) else Notification(name)]
    case _ => []
  }

  function HandlersAfter(handlers: bool, e: Event): bool {
    match e
    case Attach(_) => true
    case SetHandlers => true
    case Detach => false
    case _ => handlers
  }

  /** All it asks for, read off the events alone. */
  function Asked(handlers: bool, events: seq<Event>): seq<Incoming>
    decreases |events|
  {
    if events == [] then [] else AskedBy(handlers, events[0]) + Asked(HandlersAfter(handlers, events[0]), events[1..])
  }

  lemma DeliveredByStep(st: State, e: Event)
    ensures Step(st, e).delivered == st.delivered + AskedBy(st.handlers, e)
    ensures Step(st, e).handlers == HandlersAfter(st.handlers, e)
  {
  }

  /** The handlers receive exactly the peer's calls, each once and in order, and never a
      response. */
  lemma {:induction false} HandlersGetEveryCall(st: State, events: seq<Event>)
    ensures Run(st, events).delivered == st.delivered + Asked(st.handlers, events)
    decreases |events|
  {
    if events != [] {
      var next := Step(st, events[0]);
      DeliveredByStep(st, events[0]);
      HandlersGetEveryCall(next, events[1..]);
      Associate(st.delivered, AskedBy(st.handlers, events[0]), Asked(next.handlers, events[1..]));
    }
  }

  // ---------- The outcome of a request ----------

  /** How one event settles a request that is waiting, if it does. */
  function SettledBy(e: Event, call: Call): Option<Outcome> {
    match e
    case Attach(_) => Some(Rejected(TransportClosed))
    case Detach => Some(Rejected(TransportClosed))
    case Timeout(id) => if id == call.id then Some(Rejected(TimedOut(call.name, call.ms))) else None
    case Line(Some(msg)) =>
      if msg.id == Some(Num(call.id)) && msg.name == None then
        match msg.error
        case Some(error) => Some(Rejected(Remote(error)))
        case None => Some(Resolved(msg.result))
      else None
    case _ => None
  }

  function FirstSettling(events: seq<Event>, call: Call): Option<Outcome> {
    if events == [] then None
    else if SettledBy(events[0], call).Some? then SettledBy(events[0], call)
    else FirstSettling(events[1..], call)
  }

  function OutcomeOf(log: seq<Settlement>, id: nat): Option<Outcome> {
    if log == [] then None
    else if log[0].id == id then Some(log[0].outcome)
    else OutcomeOf(log[1..], id)
  }

  lemma {:induction false} OutcomeConcat(a: seq<Settlement>, b: seq<Settlement>, id: nat)
    ensures OutcomeOf(a + b, id) == if Settled(a, id) > 0 then OutcomeOf(a, id) else OutcomeOf(b, id)
    ensures OutcomeOf(a, id).Some? <==> Settled(a, id) > 0
  {
    if a == [] {
      assert a + b == b;
    } else {
      assert (a + b)[1..] == a[1..] + b;
      OutcomeConcat(a[1..], b, id);
    }
  }

  lemma {:induction false} OutcomeOfAllClosed(pending: seq<Call>, id: nat)
    requires Get(pending, id).Some?
    ensures OutcomeOf(AllClosed(pending), id) == Some(Rejected(TransportClosed))
  {
    assert AllClosed(pending)[1..] == AllClosed(pending[1..]);
    if pending[0].id != id {
      OutcomeOfAllClosed(pending[1..], id);
    }
  }

  lemma {:induction false} GetAppend(pending: seq<Call>, c: Call, id: nat)
    ensures Get(pending + [c], id) ==
            if Get(pending, id).Some? then Get(pending, id) else if c.id == id then Some(c) else None
  {
    if pending == [] {
      assert pending + [c] == [c] && [c][1..] == [];
    } else {
      assert (pending + [c])[1..] == pending[1..] + [c];
      GetAppend(pending[1..], c, id);
    }
  }

  lemma {:induction false} GetWithout(pending: seq<Call>, k: nat, id: nat)
    requires k != id
    ensures Get(Without(pending, k), id) == Get(pending, id)
  {
    if pending != [] {
      GetWithout(pending[1..], k, id);
      assert pending[0].id != k ==> Without(pending, k)[1..] == Without(pending[1..], k);
    }
  }

  lemma SettleOther(st: State, k: nat, outcome: Outcome, call: Call)
    requires Account(st, call.id) && Get(st.pending, call.id) == Some(call) && Get(st.pending, k).Some?
    ensures var next := Settle(st, k, outcome);
            if k == call.id then OutcomeOf(next.settled, k) == Some(outcome)
            else Get(next.pending, call.id) == Some(call)
  {
    GetIffWaiting(st.pending, call.id);
    OutcomeConcat(st.settled, [Settlement(k, outcome)], call.id);
    if k != call.id {
      GetWithout(st.pending, k, call.id);
    }
  }

  /** A waiting request is settled by exactly the events meant for it. */
  lemma StepOnWaiting(st: State, e: Event, call: Call)
    requires Account(st, call.id) && Get(st.pending, call.id) == Some(call)
    ensures var next := Step(st, e);
            if SettledBy(e, call).Some? then OutcomeOf(next.settled, call.id) == SettledBy(e, call)
            else Get(next.pending, call.id) == Some(call)
  {
    GetIffWaiting(st.pending, call.id);
    match e
    case Attach(_) => ClosedOnWaiting(st, call);
    case Detach => ClosedOnWaiting(st, call);
    case SetHandlers =>
    case Send(name, ms) => GetAppend(st.pending, Call(st.nextId, name, ms), call.id);
    case Line(msg) =>
      if msg.Some? && msg.value.id.Some? && msg.value.name.None? && msg.value.id.value.Num? {
        var n := msg.value.id.value.n;
        if n >= 0 && Get(st.pending, n).Some? {
          SettleOther(st, n, Answer(msg.value), call);
        }
      }
    case Timeout(k) =>
      if Get(st.pending, k).Some? {
        var other := Get(st.pending, k).value;
        SettleOther(st, k, Rejected(TimedOut(other.name, other.ms)), call);
      }
  }

  lemma ClosedOnWaiting(st: State, call: Call)
    requires Account(st, call.id) && Get(st.pending, call.id) == Some(call)
    ensures OutcomeOf(Detached(st).settled, call.id) == Some(Rejected(TransportClosed))
  {
    GetIffWaiting(st.pending, call.id);
    OutcomeOfAllClosed(st.pending, call.id);
    OutcomeConcat(st.settled, AllClosed(st.pending), call.id);
  }

  /** Outcomes are only ever added. */
  lemma {:induction false} OutcomesStay(st: State, events: seq<Event>, id: nat)
    requires OutcomeOf(st.settled, id).Some?
    ensures OutcomeOf(Run(st, events).settled, id) == OutcomeOf(st.settled, id)
    decreases |events|
  {
    if events != [] {
      var next := Step(st, events[0]);
      assert st.settled <= next.settled;
      var more := next.settled[|st.settled|..];
      assert next.settled == st.settled + more;
      OutcomeConcat(st.settled, more, id);
      OutcomesStay(next, events[1..], id);
    }
  }

  lemma {:induction false} WaitingGetsFirstSettling(st: State, events: seq<Event>, call: Call)
    requires Account(st, call.id) && Get(st.pending, call.id) == Some(call)
    ensures OutcomeOf(Run(st, events).settled, call.id) == FirstSettling(events, call)
    decreases |events|
  {
    if events == [] {
      GetIffWaiting(st.pending, call.id);
      OutcomeConcat(st.settled, [], call.id);
    } else {
      var next := Step(st, events[0]);
      StepOnWaiting(st, events[0], call);
      if SettledBy(events[0], call).Some? {
        OutcomesStay(next, events[1..], call.id);
      } else {
        StepKeepsAccount(st, events[0], call.id);
        WaitingGetsFirstSettling(next, events[1..], call);
      }
    }
  }

  lemma {:induction false} RunConcat(st: State, a: seq<Event>, b: seq<Event>)
    ensures Run(st, a + b) == Run(Run(st, a), b)
    decreases |a|
  {
    if a == [] {
      assert a + b == b;
    } else {
      assert (a + b)[1..] == a[1..] + b;
      RunConcat(Step(st, a[0]), a[1..], b);
    }
  }

  /** In any run, an accepted request ends with the first later event that is a response
      with its id, its own timeout, or the end of the attachment, whatever else happens. */
  lemma RequestEndsWithFirstSettling(before: seq<Event>, name: string, ms: nat, after: seq<Event>)
    requires Open(Run(Fresh, before))
    ensures var id := Run(Fresh, before).nextId;
            OutcomeOf(Run(Fresh, before + [Send(name, ms)] + after).settled, id) == FirstSettling(after, Call(id, name, ms))
  {
    var st := Run(Fresh, before);
    var call := Call(st.nextId, name, ms);
    RunConcat(Fresh, before + [Send(name, ms)], after);
    RunConcat(Fresh, before, [Send(name, ms)]);
    var next := Step(st, Send(name, ms));
    assert Run(st, [Send(name, ms)]) == next by { assert [Send(name, ms)][1..] == []; }
    FreshAccount(call.id);
    EveryIdIsPendingOrSettledOnce(Fresh, before, call.id);
    GetIffWaiting(st.pending, call.id);
    GetAppend(st.pending, call, call.id);
    StepKeepsAccount(st, Send(name, ms), call.id);
    WaitingGetsFirstSettling(next, after, call);
  }

  /** Whoever detaches or attaches again finds nothing pending: by then every request ever
      accepted has settled, exactly once. */
  lemma AllSettledByDetach(events: seq<Event>, last: Event, id: nat)
    requires last.Detach? || last.Attach?
    ensures var end := Step(Run(Fresh, events), last);
            end.pending == [] && end.timers == {} && Settled(end.settled, id) == if 1 <= id < end.nextId then 1 else 0
  {
    FreshAccount(id);
    EveryIdIsPendingOrSettledOnce(Fresh, events, id);
    StepKeepsAccount(Run(Fresh, events), last, id);
  }

  /** A line is a response, a peer's call or nothing: it settles exactly the waiting
      request whose number it carries, and never when it names a method. */
  lemma LineSettlesOnlyItsRequest(events: seq<Event>, msg: Message, id: nat)
    ensures var st := Run(Fresh, events);
            Settled(Step(st, Line(Some(msg))).settled, id) - Settled(st.settled, id) ==
            if msg.id == Some(Num(id)) && msg.name == None && Waiting(st.pending, id) == 1 then 1 else 0
  {
    var st := Run(Fresh, events);
    var next := Step(st, Line(Some(msg)));
    FreshAccount(id);
    EveryIdIsPendingOrSettledOnce(Fresh, events, id);
    StepKeepsAccount(st, Line(Some(msg)), id);
    GetIffWaiting(st.pending, id);
    if msg.id.Some? && msg.name.None? && msg.id.value.Num? && msg.id.value.n >= 0 {
      WaitingWithout(st.pending, msg.id.value.n, id);
    }
  }

  // ---------- The order of rejections ----------

  /** The pending requests are numbered upwards, below `next`. */
  predicate Upwards(pending: seq<Call>, next: nat) {
    && (forall i, j | 0 <= i < j < |pending| :: pending[i].id < pending[j].id)
    && (forall i | 0 <= i < |pending| :: pending[i].id < next)
  }

  /** All ids are at least `low`. */
  predicate From(pending: seq<Call>, low: nat) { forall i | 0 <= i < |pending| :: pending[i].id >= low }

  lemma {:induction false} WithoutKeepsOrder(pending: seq<Call>, id: nat, low: nat, next: nat)
    requires Upwards(pending, next) && From(pending, low)
    ensures Upwards(Without(pending, id), next) && From(Without(pending, id), low)
  {
    if pending != [] {
      WithoutKeepsOrder(pending[1..], id, pending[0].id + 1, next);
    }
  }

  lemma StepKeepsOrder(st: State, e: Event)
    requires Upwards(st.pending, st.nextId)
    ensures Upwards(Step(st, e).pending, Step(st, e).nextId)
  {
    match e
    case Line(msg) =>
      if msg.Some? && msg.value.id.Some? && msg.value.id.value.Num? && msg.value.id.value.n >= 0 {
        WithoutKeepsOrder(st.pending, msg.value.id.value.n, 0, st.nextId);
      }
    case Timeout(id) => WithoutKeepsOrder(st.pending, id, 0, st.nextId);
    case _ =>
  }

  lemma {:induction false} RunKeepsOrder(st: State, events: seq<Event>)
    requires Upwards(st.pending, st.nextId)
    ensures Upwards(Run(st, events).pending, Run(st, events).nextId)
    decreases |events|
  {
    if events != [] {
      StepKeepsOrder(st, events[0]);
      RunKeepsOrder(Step(st, events[0]), events[1..]);
    }
  }

  lemma {:induction false} AllClosedInOrder(pending: seq<Call>)
    ensures |AllClosed(pending)| == |pending|
    ensures forall i | 0 <= i < |pending| :: AllClosed(pending)[i] == Settlement(pending[i].id, Rejected(TransportClosed))
  {
    if pending != [] { AllClosedInOrder(pending[1..]); }
  }

  /** When the attachment ends, all that is pending is rejected, once each and in the order
      in which the requests were sent. */
  lemma DetachRejectsInOrder(events: seq<Event>, last: Event)
    requires last.Detach? || last.Attach?
    ensures var st := Run(Fresh, events);
            var end := Step(st, last).settled;
            && |end| == |st.settled| + |st.pending| && end[..|st.settled|] == st.settled
            && (forall i | 0 <= i < |st.pending| ::
                  end[|st.settled| + i] == Settlement(st.pending[i].id, Rejected(TransportClosed)))
            && (forall i, j | 0 <= i < j < |st.pending| :: st.pending[i].id < st.pending[j].id)
  {
    var st := Run(Fresh, events);
    RunKeepsOrder(Fresh, events);
    AllClosedInOrder(st.pending);
    assert Step(st, last).settled == st.settled + AllClosed(st.pending);
  }
}
