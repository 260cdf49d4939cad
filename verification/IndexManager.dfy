/** The incremental index: file events are coalesced by path and applied in bulk, and a
command loop drains its queue before it applies them.  The disk, the parser and the
answers to queries are arbitrary but fixed functions. */
module IndexManager {
  import opened Options
  import opened Sequences

  type Path = string
  /** A path relative to the root: the key of a file in the index. */
  type Key = string
  type Symbols = string
  type Index = map<Key, Symbols>
  type Query = string

  datatype Kind = Created | Modified | Removed | Renamed

  datatype FileEvent = FileEvent(kind: Kind, paths: seq<Path>)

  /** `disk` is what reading and parsing a file yields, if anything; `built` is the index
      of a full build. */
  datatype Env = Env(
    key: Path -> Key, supported: Path -> bool, hidden: Key -> bool,
    disk: Path -> Option<Symbols>, built: Index, answer: (Query, Index) -> string)

  function Lookup(index: Index, k: Key): Option<Symbols> {
    if k in index then Some(index[k]) else None
  }

  function Put(index: Index, k: Key, v: Option<Symbols>): (r: Index)
    ensures forall j :: Lookup(r, j) == if j == k then v else Lookup(index, j)
  {
    if v.Some? then index[k := v.value] else map j | j in index && j != k :: index[j]
  }

  lemma SameLookups(a: Index, b: Index)
    requires forall k :: Lookup(a, k) == Lookup(b, k)
    ensures a == b
  {
    forall k ensures k in a <==> k in b {
      assert Lookup(a, k) == Lookup(b, k);
    }
    forall k | k in a ensures a[k] == b[k] {
      assert Lookup(a, k) == Lookup(b, k);
    }
  }

  // ---------- Event by event ----------

  /** One path with what happened to it. */
  datatype Atom = Atom(path: Path, kind: Kind)

  function AtomsOfPaths(paths: seq<Path>, kind: Kind): seq<Atom> {
    if paths == [] then [] else AtomsOfPaths(paths[..|paths| - 1], kind) + [Atom(paths[|paths| - 1], kind)]
  }

  /** A rename is the removal of one path and the creation of another. */
  function AtomsOf(e: FileEvent): seq<Atom> {
    if e.kind.Renamed? && |e.paths| >= 2 then [Atom(e.paths[0], Removed), Atom(e.paths[1], Created)]
    else AtomsOfPaths(e.paths, e.kind)
  }

  function AtomsOfAll(events: seq<FileEvent>): seq<Atom> {
    if events == [] then [] else AtomsOfAll(events[..|events| - 1]) + AtomsOf(events[|events| - 1])
  }

  /** An event is one atom for each of its paths, in order, but a rename of one path to
      another is the removal of the first and the creation of the second. */
  lemma AtomsInOrder(e: FileEvent)
    ensures if e.kind.Renamed? && |e.paths| >= 2 then AtomsOf(e) == [Atom(e.paths[0], Removed), Atom(e.paths[1], Created)]
            else |AtomsOf(e)| == |e.paths| && forall i | 0 <= i < |e.paths| :: AtomsOf(e)[i] == Atom(e.paths[i], e.kind)
  {
    AtomsOfPathsInOrder(e.paths, e.kind);
  }

  lemma {:induction false} AtomsOfPathsInOrder(paths: seq<Path>, kind: Kind)
    ensures var atoms := AtomsOfPaths(paths, kind);
            |atoms| == |paths| && forall i | 0 <= i < |paths| :: atoms[i] == Atom(paths[i], kind)
  {
    if paths != [] { AtomsOfPathsInOrder(paths[..|paths| - 1], kind); }
  }

  /** Several events are their atoms one after the other. */
  lemma {:induction false} AtomsOfAllConcat(a: seq<FileEvent>, b: seq<FileEvent>)
    ensures AtomsOfAll(a + b) == AtomsOfAll(a) + AtomsOfAll(b)
  {
    if b == [] {
      assert a + b == a;
    } else {
      assert (a + b)[..|a + b| - 1] == a + b[..|b| - 1];
      AtomsOfAllConcat(a, b[..|b| - 1]);
      Associate(AtomsOfAll(a), AtomsOfAll(b[..|b| - 1]), AtomsOf(b[|b| - 1]));
    }
  }

  lemma AtomsOfOne(e: FileEvent)
    ensures AtomsOfAll([e]) == AtomsOf(e)
  {
    assert [e][..0] == [] && AtomsOfAll([]) == [];
  }

  predicate ShouldIndex(env: Env, p: Path) { env.supported(p) && !env.hidden(env.key(p)) }

  function Reindex(env: Env, index: Index, p: Path): Index {
    Put(index, env.key(p), if env.supported(p) then env.disk(p) else None)
  }

  function Apply(env: Env, index: Index, p: Path, kind: Kind): Index {
    if !ShouldIndex(env, p) then index
    else if kind.Removed? then Put(index, env.key(p), None)
    else Reindex(env, index, p)
  }

  function ApplyAtoms(env: Env, index: Index, atoms: seq<Atom>): Index {
    if atoms == [] then index
    else
      var last := atoms[|atoms| - 1];
      Apply(env, ApplyAtoms(env, index, atoms[..|atoms| - 1]), last.path, last.kind)
  }

  // ---------- Coalescing ----------

  function Merge(prev: Option<Kind>, kind: Kind): Option<Kind> {
    match (prev, kind)
    case (Some(Created), Removed) => None
    case (Some(Modified), Removed) => None
    case (Some(Removed), Created) => Some(Created)
    case (Some(Removed), Modified) => Some(Created)
    case _ => Some(kind)
  }

  function Entry(events: map<Path, Kind>, p: Path): Option<Kind> {
    if p in events then Some(events[p]) else None
  }

  /** `next` is `events` with `kind` merged into the entry of `p`. */
  ghost predicate Inserted(events: map<Path, Kind>, p: Path, kind: Kind, next: map<Path, Kind>) {
    forall q :: Entry(next, q) == if q == p then Merge(Entry(events, p), kind) else Entry(events, q)
  }

  /** What coalescing leaves for `p`. */
  function Coalesced(atoms: seq<Atom>, p: Path): Option<Kind> {
    if atoms == [] then None
    else
      var last, rest := atoms[|atoms| - 1], Coalesced(atoms[..|atoms| - 1], p);
      if last.path == p then Merge(rest, last.kind) else rest
  }

  class CoalescedEvents {
    var events: map<Path, Kind>

    ghost predicate Holds(atoms: seq<Atom>)
      reads this
    {
      forall p :: Entry(events, p) == Coalesced(atoms, p)
    }

    constructor ()
      ensures Holds([])
    {
      events := map[];
    }

    method Insert(path: Path, kind: Kind, ghost atoms: seq<Atom>)
      requires Holds(atoms)
      modifies this
      ensures Inserted(old(events), path, kind, events)
      ensures var was := Entry(old(events), path);
              Entry(events, path) ==
              if kind.Removed? && (was == Some(Created) || was == Some(Modified)) then None
              else if was == Some(Removed) && (kind.Created? || kind.Modified?) then Some(Created)
              else Some(kind)
      ensures Holds(atoms + [Atom(path, kind)])
    {
      ghost var before := events;
      if path !in events {
        events := events[path := kind];
      } else {
        var prev := events[path];
        match (prev, kind) {
          case (Created, Removed) => Remove(path);
          case (Modified, Removed) => Remove(path);
          case (Removed, Created) => events := events[path := Created];
          case (Removed, Modified) => events := events[path := Created];
          case _ => events := events[path := kind];
        }
      }
      CoalescedSnoc(before, events, atoms, path, kind);
    }

    method Remove(path: Path)
      modifies this
      ensures events == old(events) - {path}
    {
      events := events - {path};
    }

    /** Add an event: each of its paths in turn, a rename as two. */
    method Add(e: FileEvent, ghost atoms: seq<Atom>)
      requires Holds(atoms)
      modifies this
      ensures Holds(atoms + AtomsOf(e))
    {
      if e.kind.Renamed? && |e.paths| >= 2 {
        Insert(e.paths[0], Removed, atoms);
        Insert(e.paths[1], Created, atoms + [Atom(e.paths[0], Removed)]);
        assert atoms + [Atom(e.paths[0], Removed)] + [Atom(e.paths[1], Created)] == atoms + AtomsOf(e);
        return;
      }
      assert atoms + AtomsOfPaths(e.paths[..0], e.kind) == atoms;
      for i := 0 to |e.paths|
        invariant Holds(atoms + AtomsOfPaths(e.paths[..i], e.kind))
      {
        ghost var done := AtomsOfPaths(e.paths[..i], e.kind);
        Insert(e.paths[i], e.kind, atoms + done);
        assert e.paths[..i + 1][..i] == e.paths[..i];
        assert atoms + done + [Atom(e.paths[i], e.kind)] == atoms + AtomsOfPaths(e.paths[..i + 1], e.kind);
      }
      assert e.paths[..|e.paths|] == e.paths;
    }
  }

  lemma CoalescedSnoc(before: map<Path, Kind>, next: map<Path, Kind>, atoms: seq<Atom>, path: Path, kind: Kind)
    requires forall p :: Entry(before, p) == Coalesced(atoms, p)
    requires Inserted(before, path, kind, next)
    ensures forall p :: Entry(next, p) == Coalesced(atoms + [Atom(path, kind)], p)
  {
    forall p ensures Entry(next, p) == Coalesced(atoms + [Atom(path, kind)], p) {
      assert (atoms + [Atom(path, kind)])[..|atoms|] == atoms;
    }
  }

  // ---------- What a sequence of events writes ----------

  /** The last thing that happened to `p`. */
  function LastKind(atoms: seq<Atom>, p: Path): Option<Kind> {
    if atoms == [] then None
    else if atoms[|atoms| - 1].path == p then Some(atoms[|atoms| - 1].kind)
    else LastKind(atoms[..|atoms| - 1], p)
  }

  /** Coalescing keeps whether the file is there at the end, or forgets a removal. */
  lemma {:induction false} CoalescedTracksLast(atoms: seq<Atom>, p: Path)
    ensures Coalesced(atoms, p).Some? ==>
              LastKind(atoms, p).Some? && (Coalesced(atoms, p).value.Removed? <==> LastKind(atoms, p).value.Removed?)
    ensures Coalesced(atoms, p).None? ==> LastKind(atoms, p).None? || LastKind(atoms, p).value.Removed?
  {
    if atoms != [] {
      CoalescedTracksLast(atoms[..|atoms| - 1], p);
    }
  }

  function Paths(atoms: seq<Atom>): set<Path> { set a | a in atoms :: a.path }

  lemma FrontPaths(atoms: seq<Atom>)
    requires atoms != []
    ensures Paths(atoms) == Paths(atoms[..|atoms| - 1]) + {atoms[|atoms| - 1].path}
  {
    var front, last := atoms[..|atoms| - 1], atoms[|atoms| - 1];
    assert atoms == front + [last];
    forall p | p in Paths(front) + {last.path} ensures p in Paths(atoms) {
      if p == last.path {
        assert last in atoms;
      } else {
        var a :| a in front && a.path == p;
        assert a in atoms;
      }
    }
  }

  lemma {:induction false} LastKindOfPaths(atoms: seq<Atom>, p: Path)
    ensures LastKind(atoms, p).Some? <==> p in Paths(atoms)
  {
    if atoms != [] {
      FrontPaths(atoms);
      LastKindOfPaths(atoms[..|atoms| - 1], p);
    }
  }

  /** What an event writes to the entry of its file. */
  function Value(env: Env, p: Path, kind: Kind): Option<Symbols> {
    if kind.Removed? then None else env.disk(p)
  }

  datatype Write = Untouched | Wrote(value: Option<Symbols>)

  /** The last write to the entry of `k`.  Several spellings of a path can have that key. */
  function LastWrite(env: Env, atoms: seq<Atom>, k: Key): Write {
    if atoms == [] then Untouched
    else
      var last := atoms[|atoms| - 1];
      if env.key(last.path) == k && ShouldIndex(env, last.path) then Wrote(Value(env, last.path, last.kind))
      else LastWrite(env, atoms[..|atoms| - 1], k)
  }

  function Written(w: Write, was: Option<Symbols>): Option<Symbols> {
    if w.Wrote? then w.value else was
  }

  lemma {:induction false} AppliedAt(env: Env, index: Index, atoms: seq<Atom>, k: Key)
    ensures Lookup(ApplyAtoms(env, index, atoms), k) == Written(LastWrite(env, atoms, k), Lookup(index, k))
  {
    if atoms != [] {
      AppliedAt(env, index, atoms[..|atoms| - 1], k);
    }
  }

  /** The `i`-th event is the last one on an indexable path with the key `k`. */
  predicate LastOn(env: Env, atoms: seq<Atom>, k: Key, i: nat) {
    && i < |atoms| && Touches(env, atoms[i].path, k)
    && forall j | i < j < |atoms| :: !Touches(env, atoms[j].path, k)
  }

  predicate Touches(env: Env, p: Path, k: Key) {
    env.key(p) == k && env.supported(p) && !env.hidden(k)
  }

  lemma {:induction false} LastOnDecides(env: Env, index: Index, atoms: seq<Atom>, k: Key, i: nat)
    requires LastOn(env, atoms, k, i)
    ensures Lookup(ApplyAtoms(env, index, atoms), k) == if atoms[i].kind.Removed? then None else env.disk(atoms[i].path)
  {
    var n := |atoms| - 1;
    if i < n {
      assert !Touches(env, atoms[n].path, k) && LastOn(env, atoms[..n], k, i);
      LastOnDecides(env, index, atoms[..n], k, i);
    }
  }

  lemma {:induction false} UntouchedStays(env: Env, index: Index, atoms: seq<Atom>, k: Key)
    requires forall i | 0 <= i < |atoms| :: !Touches(env, atoms[i].path, k)
    ensures Lookup(ApplyAtoms(env, index, atoms), k) == Lookup(index, k)
  {
    if atoms != [] {
      UntouchedStays(env, index, atoms[..|atoms| - 1], k);
    }
  }

  /** One by one, the last event on a file decides: its entry is gone if that was a removal,
      and otherwise what the disk yields; without an event on it the entry is as before. */
  lemma LastEventDecides(env: Env, index: Index, atoms: seq<Atom>, k: Key)
    ensures forall i: nat | LastOn(env, atoms, k, i) ::
              Lookup(ApplyAtoms(env, index, atoms), k) == if atoms[i].kind.Removed? then None else env.disk(atoms[i].path)
    ensures (forall i | 0 <= i < |atoms| :: !Touches(env, atoms[i].path, k)) ==>
              Lookup(ApplyAtoms(env, index, atoms), k) == Lookup(index, k)
  {
    hide ApplyAtoms, Lookup;
    forall i: nat | LastOn(env, atoms, k, i)
      ensures Lookup(ApplyAtoms(env, index, atoms), k) == if atoms[i].kind.Removed? then None else env.disk(atoms[i].path)
    {
      LastOnDecides(env, index, atoms, k, i);
    }
    if forall i | 0 <= i < |atoms| :: !Touches(env, atoms[i].path, k) {
      UntouchedStays(env, index, atoms, k);
    }
  }

  /** The last write comes from the last event of some indexable spelling, if one was touched. */
  lemma {:induction false} WriteComesFrom(env: Env, atoms: seq<Atom>, k: Key) returns (p: Path)
    ensures LastWrite(env, atoms, k).Wrote? ==>
              && p in Paths(atoms) && env.key(p) == k && ShouldIndex(env, p) && LastKind(atoms, p).Some?
              && LastWrite(env, atoms, k).value == Value(env, p, LastKind(atoms, p).value)
    ensures LastWrite(env, atoms, k).Untouched? ==>
              forall q | q in Paths(atoms) && env.key(q) == k :: !ShouldIndex(env, q)
  {
    p := "";
    if atoms != [] {
      var front, last := atoms[..|atoms| - 1], atoms[|atoms| - 1];
      FrontPaths(atoms);
      p := WriteComesFrom(env, front, k);
      if env.key(last.path) == k && ShouldIndex(env, last.path) {
        p := last.path;
      } else if p == last.path {
        assert LastWrite(env, front, k).Untouched?;
      }
    }
  }

  // ---------- Bulk against event by event ----------

  predicate NoRepeats(order: seq<Atom>) {
    order == [] || (order[|order| - 1].path !in Paths(order[..|order| - 1]) && NoRepeats(order[..|order| - 1]))
  }

  /** An order in which the pending paths can be dealt with: each once, by its pending kind. */
  ghost predicate IsOrder(atoms: seq<Atom>, order: seq<Atom>) {
    NoRepeats(order) && forall p :: LastKind(order, p) == Coalesced(atoms, p)
  }

  /** `p` is pending, and its entry may be written. */
  predicate Pending(env: Env, atoms: seq<Atom>, p: Path) {
    ShouldIndex(env, p) && Coalesced(atoms, p).Some?
  }

  function PendingValue(env: Env, atoms: seq<Atom>, p: Path): Option<Symbols>
    requires Pending(env, atoms, p)
  {
    Value(env, p, Coalesced(atoms, p).value)
  }

  /** At the key `k`: every pending spelling writes what the last event on the file wrote;
      or if none is pending, one-by-one application leaves the entry as it was. */
  predicate KeyAgrees(env: Env, index: Index, atoms: seq<Atom>, k: Key) {
    var exact := Written(LastWrite(env, atoms, k), Lookup(index, k));
    && (forall p | p in Paths(atoms) :: env.key(p) == k && Pending(env, atoms, p) ==> PendingValue(env, atoms, p) == exact)
    && ((forall p | p in Paths(atoms) :: env.key(p) == k ==> !Pending(env, atoms, p)) ==> Lookup(index, k) == exact)
  }

  predicate Agrees(env: Env, index: Index, atoms: seq<Atom>) {
    forall p | p in Paths(atoms) :: KeyAgrees(env, index, atoms, env.key(p))
  }

  lemma PendingIsTouched(atoms: seq<Atom>, p: Path)
    requires Coalesced(atoms, p).Some?
    ensures p in Paths(atoms)
  {
    CoalescedTracksLast(atoms, p);
    LastKindOfPaths(atoms, p);
  }

  /** What an order leaves at a key: the write of some pending spelling, or what was there. */
  lemma OrderAt(env: Env, index: Index, atoms: seq<Atom>, order: seq<Atom>, k: Key) returns (p: Path)
    requires IsOrder(atoms, order)
    ensures var v := Lookup(ApplyAtoms(env, index, order), k);
            || (p in Paths(atoms) && env.key(p) == k && Pending(env, atoms, p) && v == PendingValue(env, atoms, p))
            || (v == Lookup(index, k) && forall q | q in Paths(atoms) :: env.key(q) == k ==> !Pending(env, atoms, q))
  {
    AppliedAt(env, index, order, k);
    p := WriteComesFrom(env, order, k);
    assert LastKind(order, p) == Coalesced(atoms, p);
    if LastWrite(env, order, k).Wrote? {
      PendingIsTouched(atoms, p);
    } else {
      forall q | q in Paths(atoms) && env.key(q) == k ensures !Pending(env, atoms, q) {
        assert LastKind(order, q) == Coalesced(atoms, q);
        LastKindOfPaths(order, q);
      }
    }
  }

  lemma {:induction false} AgreeingOrder(env: Env, index: Index, atoms: seq<Atom>, order: seq<Atom>)
    requires IsOrder(atoms, order) && Agrees(env, index, atoms)
    ensures ApplyAtoms(env, index, order) == ApplyAtoms(env, index, atoms)
  {
    forall k ensures Lookup(ApplyAtoms(env, index, order), k) == Lookup(ApplyAtoms(env, index, atoms), k) {
      var p := OrderAt(env, index, atoms, order, k);
      AppliedAt(env, index, atoms, k);
      var q := WriteComesFrom(env, atoms, k);
      assert LastWrite(env, atoms, k).Wrote? ==> KeyAgrees(env, index, atoms, env.key(q));
    }
    SameLookups(ApplyAtoms(env, index, order), ApplyAtoms(env, index, atoms));
  }

  /** The paths of `ps` in some order, each with its pending kind. */
  lemma Ordering(atoms: seq<Atom>, ps: set<Path>) returns (order: seq<Atom>)
    requires forall p | p in ps :: Coalesced(atoms, p).Some?
    ensures NoRepeats(order) && Paths(order) == ps
    ensures forall p :: LastKind(order, p) == if p in ps then Coalesced(atoms, p) else None
    decreases |ps|
  {
    if ps == {} {
      order := [];
    } else {
      var p :| p in ps;
      order := OrderingWithLast(atoms, ps, p);
    }
  }

  lemma OrderingWithLast(atoms: seq<Atom>, ps: set<Path>, p: Path) returns (order: seq<Atom>)
    requires p in ps && forall q | q in ps :: Coalesced(atoms, q).Some?
    ensures NoRepeats(order) && Paths(order) == ps && order != []
    ensures order[|order| - 1] == Atom(p, Coalesced(atoms, p).value)
    ensures forall q :: LastKind(order, q) == if q in ps then Coalesced(atoms, q) else None
    decreases |ps|, 0
  {
    var front := Ordering(atoms, ps - {p});
    order := front + [Atom(p, Coalesced(atoms, p).value)];
    assert order[..|order| - 1] == front;
    FrontPaths(order);
  }

  function PendingPaths(atoms: seq<Atom>): set<Path> {
    set p | p in Paths(atoms) && Coalesced(atoms, p).Some?
  }

  lemma OrderEndingWith(atoms: seq<Atom>, p: Path) returns (order: seq<Atom>)
    requires Coalesced(atoms, p).Some?
    ensures IsOrder(atoms, order) && order != [] && order[|order| - 1] == Atom(p, Coalesced(atoms, p).value)
  {
    PendingIsTouched(atoms, p);
    order := OrderingWithLast(atoms, PendingPaths(atoms), p);
    forall q ensures LastKind(order, q) == Coalesced(atoms, q) {
      if Coalesced(atoms, q).Some? { PendingIsTouched(atoms, q); }
    }
  }

  lemma SomeOrder(atoms: seq<Atom>) returns (order: seq<Atom>)
    ensures IsOrder(atoms, order)
  {
    order := Ordering(atoms, PendingPaths(atoms));
    forall q ensures LastKind(order, q) == Coalesced(atoms, q) {
      if Coalesced(atoms, q).Some? { PendingIsTouched(atoms, q); }
    }
  }

  /** Applying the coalesced events is applying the events one by one, in every order in
      which the pending paths can be dealt with, if and only if the keys agree: whatever
      the batch, and under however many spellings it reports a file. */
  lemma EveryOrderAgreesIff(env: Env, index: Index, atoms: seq<Atom>)
    ensures (forall order | IsOrder(atoms, order) :: ApplyAtoms(env, index, order) == ApplyAtoms(env, index, atoms))
            <==> Agrees(env, index, atoms)
  {
    if Agrees(env, index, atoms) {
      forall order | IsOrder(atoms, order) ensures ApplyAtoms(env, index, order) == ApplyAtoms(env, index, atoms) {
        AgreeingOrder(env, index, atoms, order);
      }
    }
    if forall order | IsOrder(atoms, order) :: ApplyAtoms(env, index, order) == ApplyAtoms(env, index, atoms) {
      forall x | x in Paths(atoms) ensures KeyAgrees(env, index, atoms, env.key(x)) {
        KeyMustAgree(env, index, atoms, env.key(x));
      }
    }
  }

  lemma KeyMustAgree(env: Env, index: Index, atoms: seq<Atom>, k: Key)
    requires forall order | IsOrder(atoms, order) :: ApplyAtoms(env, index, order) == ApplyAtoms(env, index, atoms)
    ensures KeyAgrees(env, index, atoms, k)
  {
    AppliedAt(env, index, atoms, k);
    forall p | p in Paths(atoms) && env.key(p) == k && Pending(env, atoms, p)
      ensures PendingValue(env, atoms, p) == Written(LastWrite(env, atoms, k), Lookup(index, k))
    {
      var order := OrderEndingWith(atoms, p);
      AppliedAt(env, index, order, k);
    }
    if forall p | p in Paths(atoms) :: env.key(p) == k ==> !Pending(env, atoms, p) {
      var order := SomeOrder(atoms);
      var p := OrderAt(env, index, atoms, order, k);
    }
  }

  /** `a` lies within `b`: the same entries, as far as it has any. */
  ghost predicate Within(a: Index, b: Index) {
    forall k :: Lookup(a, k).Some? ==> Lookup(b, k) == Lookup(a, k)
  }

  /** Where one-by-one application writes an entry, every pending spelling writes the same. */
  predicate Consistent(env: Env, atoms: seq<Atom>) {
    forall p | p in Paths(atoms) :: Pending(env, atoms, p) && LastWrite(env, atoms, env.key(p)).Wrote? ==>
      LastWrite(env, atoms, env.key(p)).value.Some? ==> PendingValue(env, atoms, p) == LastWrite(env, atoms, env.key(p)).value
  }

  lemma {:induction false} ConsistentOrder(env: Env, exact: Index, index: Index, atoms: seq<Atom>, order: seq<Atom>)
    requires IsOrder(atoms, order) && Consistent(env, atoms) && Within(exact, index)
    ensures Within(ApplyAtoms(env, exact, atoms), ApplyAtoms(env, index, order))
  {
    forall k | Lookup(ApplyAtoms(env, exact, atoms), k).Some?
      ensures Lookup(ApplyAtoms(env, index, order), k) == Lookup(ApplyAtoms(env, exact, atoms), k)
    {
      var p := OrderAt(env, index, atoms, order, k);
      AppliedAt(env, exact, atoms, k);
      var q := WriteComesFrom(env, atoms, k);
      CoalescedTracksLast(atoms, q);
      assert Lookup(exact, k).Some? ==> Lookup(index, k) == Lookup(exact, k);
    }
  }

  /** In every order, bulk application never loses or alters an entry that one-by-one
      application has, if and only if the spellings are consistent: it only leaves stale
      entries of removed files. */
  lemma {:induction false} OnlyAddsStaleIff(env: Env, index: Index, atoms: seq<Atom>)
    ensures (forall order | IsOrder(atoms, order) :: Within(ApplyAtoms(env, index, atoms), ApplyAtoms(env, index, order)))
            <==> Consistent(env, atoms)
  {
    if Consistent(env, atoms) {
      forall order | IsOrder(atoms, order) ensures Within(ApplyAtoms(env, index, atoms), ApplyAtoms(env, index, order)) {
        ConsistentOrder(env, index, index, atoms, order);
      }
    }
    if forall order | IsOrder(atoms, order) :: Within(ApplyAtoms(env, index, atoms), ApplyAtoms(env, index, order)) {
      forall p | p in Paths(atoms) && Pending(env, atoms, p) && LastWrite(env, atoms, env.key(p)).Wrote? &&
                 LastWrite(env, atoms, env.key(p)).value.Some?
        ensures PendingValue(env, atoms, p) == LastWrite(env, atoms, env.key(p)).value
      {
        var order := OrderEndingWith(atoms, p);
        AppliedAt(env, index, order, env.key(p));
        AppliedAt(env, index, atoms, env.key(p));
        assert Within(ApplyAtoms(env, index, atoms), ApplyAtoms(env, index, order));
      }
    }
  }

  // ---------- One spelling per file ----------

  /** Every file is reported under one spelling of its path. */
  ghost predicate OneSpelling(env: Env, paths: set<Path>) {
    forall p, q | p in paths && q in paths && env.key(p) == env.key(q) :: p == q
  }

  /** `p` was created or modified and then removed in the batch, and its entry dropped. */
  predicate Cancelled(env: Env, atoms: seq<Atom>, p: Path) {
    p in Paths(atoms) && ShouldIndex(env, p) && Coalesced(atoms, p).None?
  }

  /** No path whose pending entry was cancelled had been indexed before the batch. */
  predicate NoIndexedCancelled(env: Env, index: Index, atoms: seq<Atom>) {
    forall p | p in Paths(atoms) :: Cancelled(env, atoms, p) ==> env.key(p) !in index
  }

  lemma {:induction false} WriteOfOneSpelling(env: Env, atoms: seq<Atom>, p: Path)
    requires OneSpelling(env, Paths(atoms)) && p in Paths(atoms)
    ensures LastKind(atoms, p).Some?
    ensures LastWrite(env, atoms, env.key(p)) ==
            if ShouldIndex(env, p) then Wrote(Value(env, p, LastKind(atoms, p).value)) else Untouched
    ensures Pending(env, atoms, p) ==> PendingValue(env, atoms, p) == Value(env, p, LastKind(atoms, p).value)
  {
    LastKindOfPaths(atoms, p);
    var q := WriteComesFrom(env, atoms, env.key(p));
    CoalescedTracksLast(atoms, p);
  }

  /** Then bulk application only ever leaves stale entries, and differs from one-by-one
      application exactly if a path that was indexed has been cancelled. */
  lemma OneSpellingAgreesIff(env: Env, index: Index, atoms: seq<Atom>)
    requires OneSpelling(env, Paths(atoms))
    ensures Consistent(env, atoms)
    ensures Agrees(env, index, atoms) <==> NoIndexedCancelled(env, index, atoms)
  {
    forall p | p in Paths(atoms)
      ensures Pending(env, atoms, p) ==> Wrote(PendingValue(env, atoms, p)) == LastWrite(env, atoms, env.key(p))
      ensures KeyAgrees(env, index, atoms, env.key(p)) <==> (Cancelled(env, atoms, p) ==> env.key(p) !in index)
    {
      WriteOfOneSpelling(env, atoms, p);
      CoalescedTracksLast(atoms, p);
    }
  }

  // ---------- Where bulk goes wrong ----------

  /** The comment says that creation or modification cancels with removal and nothing is
      left to do.  But a file that was indexed before, modified and then removed within one
      drain keeps its old entry. */
  lemma ModifiedThenRemovedStays(env: Env, index: Index, p: Path, order: seq<Atom>)
    requires ShouldIndex(env, p) && env.key(p) in index
    requires IsOrder([Atom(p, Modified), Atom(p, Removed)], order)
    ensures ApplyAtoms(env, index, order) == index
    ensures env.key(p) !in ApplyAtoms(env, index, [Atom(p, Modified), Atom(p, Removed)])
  {
    var atoms := [Atom(p, Modified), Atom(p, Removed)];
    assert atoms[..1] == [Atom(p, Modified)] && atoms[..1][..0] == [];
    assert Coalesced(atoms[..1], p) == Some(Modified);
    TwoAtoms(env, index, atoms[0], atoms[1]);
    assert Lookup(ApplyAtoms(env, index, atoms), env.key(p)) == None;
    forall k ensures Lookup(ApplyAtoms(env, index, order), k) == Lookup(index, k) {
      var q := OrderAt(env, index, atoms, order, k);
    }
    SameLookups(ApplyAtoms(env, index, order), index);
  }

  /** A file reported under two spellings has two pending entries, and the order in which
      they are applied decides whether it ends up indexed. */
  lemma TwoSpellingsDisagree(env: Env, index: Index, p: Path, q: Path)
    requires p != q && env.key(p) == env.key(q) && env.supported(p) && env.supported(q)
    requires !env.hidden(env.key(p)) && env.disk(p).Some?
    ensures var atoms, back := [Atom(p, Modified), Atom(q, Removed)], [Atom(q, Removed), Atom(p, Modified)];
            && IsOrder(atoms, atoms) && IsOrder(atoms, back)
            && env.key(p) !in ApplyAtoms(env, index, atoms)
            && env.key(p) in ApplyAtoms(env, index, back)
  {
    var atoms, back := [Atom(p, Modified), Atom(q, Removed)], [Atom(q, Removed), Atom(p, Modified)];
    TwoAtoms(env, index, atoms[0], atoms[1]);
    TwoAtoms(env, index, back[0], back[1]);
    TwoPaths(atoms[0], atoms[1]);
    TwoPaths(back[0], back[1]);
    var k := env.key(p);
    assert Lookup(ApplyAtoms(env, index, atoms), k) == None;
    assert Lookup(ApplyAtoms(env, index, back), k) == env.disk(p);
  }

  lemma TwoPaths(a: Atom, b: Atom)
    requires a.path != b.path
    ensures NoRepeats([a, b])
    ensures forall p :: LastKind([a, b], p) == if p == a.path then Some(a.kind) else if p == b.path then Some(b.kind) else None
    ensures forall p :: Coalesced([a, b], p) == LastKind([a, b], p)
  {
    assert [a, b][..1] == [a] && [a][..0] == [];
    forall p
      ensures LastKind([a, b], p) == (if p == a.path then Some(a.kind) else if p == b.path then Some(b.kind) else None)
      ensures Coalesced([a, b], p) == LastKind([a, b], p)
    {
      assert LastKind([a], p) == (if p == a.path then Some(a.kind) else None);
      assert Coalesced([a], p) == LastKind([a], p);
    }
    FrontPaths([a]);
    assert Paths([a]) == {a.path};
  }

  lemma TwoAtoms(env: Env, index: Index, a: Atom, b: Atom)
    ensures ApplyAtoms(env, index, [a, b]) == Apply(env, Apply(env, index, a.path, a.kind), b.path, b.kind)
  {
    assert [a, b][..1] == [a] && [a][..0] == [];
    assert ApplyAtoms(env, index, [a]) == Apply(env, index, a.path, a.kind);
  }

  // ---------- Commands, one at a time ----------

  datatype Command =
    | OneEvent(event: FileEvent)
    | EventBatch(events: seq<FileEvent>)
    | Rebuild
    | BackgroundRefresh(stale: seq<Path>, deleted: seq<Key>)
    | Ask(query: Query)
    | Shutdown

  datatype Reply = Reply(query: Query, answer: string)

  /** `sources` holds the index each reply was read from. */
  datatype State = State(index: Index, replies: seq<Reply>, sources: seq<Index>, stopped: bool)

  function RemoveAll(index: Index, keys: seq<Key>): Index {
    if keys == [] then index else Put(RemoveAll(index, keys[..|keys| - 1]), keys[|keys| - 1], None)
  }

  function ReindexAll(env: Env, index: Index, paths: seq<Path>): Index {
    if paths == [] then index
    else
      var rest, p := ReindexAll(env, index, paths[..|paths| - 1]), paths[|paths| - 1];
      if env.supported(p) then Reindex(env, rest, p) else rest
  }

  function EventsOf(c: Command): seq<Atom> {
    match c
    case OneEvent(e) => AtomsOf(e)
    case EventBatch(es) => AtomsOfAll(es)
    case _ => []
  }

  /** A command on its own, file events one by one. */
  function Step(env: Env, st: State, c: Command): State {
    if st.stopped then st
    else
      match c
      case Rebuild => st.(index := env.built)
      case BackgroundRefresh(stale, deleted) => st.(index := ReindexAll(env, RemoveAll(st.index, deleted), stale))
      case Ask(q) => st.(replies := st.replies + [Reply(q, env.answer(q, st.index))], sources := st.sources + [st.index])
      case Shutdown => st.(stopped := true)
      case _ => st.(index := ApplyAtoms(env, st.index, EventsOf(c)))
  }

  function Run(env: Env, index: Index, commands: seq<Command>): State {
    if commands == [] then State(index, [], [], false)
    else Step(env, Run(env, index, commands[..|commands| - 1]), commands[|commands| - 1])
  }

  lemma {:induction false} StoppedStays(env: Env, index: Index, commands: seq<Command>, more: seq<Command>)
    requires Run(env, index, commands).stopped
    ensures Run(env, index, commands + more) == Run(env, index, commands)
  {
    if more == [] {
      assert commands + more == commands;
    } else {
      assert (commands + more)[..|commands + more| - 1] == commands + more[..|more| - 1];
      StoppedStays(env, index, commands, more[..|more| - 1]);
    }
  }

  lemma RunSnoc(env: Env, index: Index, commands: seq<Command>, c: Command)
    ensures Run(env, index, commands + [c]) == Step(env, Run(env, index, commands), c)
  {
    assert (commands + [c])[..|commands|] == commands;
  }

  lemma {:induction false} ApplyConcat(env: Env, index: Index, a: seq<Atom>, b: seq<Atom>)
    ensures ApplyAtoms(env, index, a + b) == ApplyAtoms(env, ApplyAtoms(env, index, a), b)
  {
    if b == [] {
      assert a + b == a;
    } else {
      assert (a + b)[..|a + b| - 1] == a + b[..|b| - 1];
      ApplyConcat(env, index, a, b[..|b| - 1]);
    }
  }

  /** The `i`-th stale path is the last supported one with the key `k`. */
  predicate LastStale(env: Env, stale: seq<Path>, k: Key, i: nat) {
    && i < |stale| && env.key(stale[i]) == k && env.supported(stale[i])
    && forall j | i < j < |stale| :: !(env.key(stale[j]) == k && env.supported(stale[j]))
  }

  /** After a background refresh, entry by entry: what the disk yields for the last supported
      stale path of the file; or without one nothing if the file was reported deleted; and
      otherwise what was there. */
  ghost predicate Refreshed(env: Env, index: Index, stale: seq<Path>, deleted: seq<Key>, after: Index) {
    forall k :: RefreshedAt(env, index, stale, deleted, after, k)
  }

  ghost predicate RefreshedAt(env: Env, index: Index, stale: seq<Path>, deleted: seq<Key>, after: Index, k: Key) {
    && (forall i: nat | LastStale(env, stale, k, i) :: Lookup(after, k) == env.disk(stale[i]))
    && ((forall i | 0 <= i < |stale| :: !(env.key(stale[i]) == k && env.supported(stale[i]))) ==>
          Lookup(after, k) == if k in deleted then None else Lookup(index, k))
  }

  lemma RefreshMeans(env: Env, index: Index, stale: seq<Path>, deleted: seq<Key>)
    ensures Refreshed(env, index, stale, deleted, ReindexAll(env, RemoveAll(index, deleted), stale))
  {
    forall k ensures RefreshedAt(env, index, stale, deleted, ReindexAll(env, RemoveAll(index, deleted), stale), k) {
      RemovedAt(index, deleted, k);
      ReindexedAt(env, RemoveAll(index, deleted), stale, k);
    }
  }

  lemma {:induction false} RemovedAt(index: Index, keys: seq<Key>, k: Key)
    ensures Lookup(RemoveAll(index, keys), k) == if k in keys then None else Lookup(index, k)
  {
    if keys != [] {
      RemovedAt(index, keys[..|keys| - 1], k);
      assert keys == keys[..|keys| - 1] + [keys[|keys| - 1]];
    }
  }

  lemma {:induction false} LastStaleDecides(env: Env, index: Index, stale: seq<Path>, k: Key, i: nat)
    requires LastStale(env, stale, k, i)
    ensures Lookup(ReindexAll(env, index, stale), k) == env.disk(stale[i])
  {
    var n := |stale| - 1;
    if i < n {
      assert !(env.key(stale[n]) == k && env.supported(stale[n])) && LastStale(env, stale[..n], k, i);
      LastStaleDecides(env, index, stale[..n], k, i);
    }
  }

  lemma {:induction false} NotStaleStays(env: Env, index: Index, stale: seq<Path>, k: Key)
    requires forall i | 0 <= i < |stale| :: !(env.key(stale[i]) == k && env.supported(stale[i]))
    ensures Lookup(ReindexAll(env, index, stale), k) == Lookup(index, k)
  {
    if stale != [] {
      NotStaleStays(env, index, stale[..|stale| - 1], k);
    }
  }

  lemma ReindexedAt(env: Env, index: Index, stale: seq<Path>, k: Key)
    ensures forall i: nat | LastStale(env, stale, k, i) :: Lookup(ReindexAll(env, index, stale), k) == env.disk(stale[i])
    ensures (forall i | 0 <= i < |stale| :: !(env.key(stale[i]) == k && env.supported(stale[i]))) ==>
              Lookup(ReindexAll(env, index, stale), k) == Lookup(index, k)
  {
    hide ReindexAll, Lookup;
    forall i: nat | LastStale(env, stale, k, i) ensures Lookup(ReindexAll(env, index, stale), k) == env.disk(stale[i]) {
      LastStaleDecides(env, index, stale, k, i);
    }
    if forall i | 0 <= i < |stale| :: !(env.key(stale[i]) == k && env.supported(stale[i])) {
      NotStaleStays(env, index, stale, k);
    }
  }

  /** What each command does, in the terms of the entries: a rebuild replaces the index, a
      refresh renews it, file events apply one by one, a question is answered from the
      index as it is, and a shutdown stops. */
  lemma StepMeans(env: Env, st: State, c: Command)
    requires !st.stopped
    ensures var next := Step(env, st, c);
            && (c.Rebuild? ==> next.index == env.built)
            && (c.BackgroundRefresh? ==> Refreshed(env, st.index, c.stale, c.deleted, next.index))
            && (c.OneEvent? ==> next.index == ApplyAtoms(env, st.index, AtomsOf(c.event)))
            && (c.EventBatch? ==> next.index == ApplyAtoms(env, st.index, AtomsOfAll(c.events)))
            && (c.Ask? || c.Shutdown? ==> next.index == st.index)
            && (next.stopped <==> c.Shutdown?)
            && (if c.Ask? then
                  next.replies == st.replies + [Reply(c.query, env.answer(c.query, st.index))] && next.sources == st.sources + [st.index]
                else next.replies == st.replies && next.sources == st.sources)
  {
    if c.BackgroundRefresh? { RefreshMeans(env, st.index, c.stale, c.deleted); }
  }

  lemma {:induction false} RemoveAllWithin(a: Index, b: Index, keys: seq<Key>)
    requires Within(a, b)
    ensures Within(RemoveAll(a, keys), RemoveAll(b, keys))
  {
    if keys != [] {
      RemoveAllWithin(a, b, keys[..|keys| - 1]);
    }
  }

  lemma {:induction false} ReindexAllWithin(env: Env, a: Index, b: Index, paths: seq<Path>)
    requires Within(a, b)
    ensures Within(ReindexAll(env, a, paths), ReindexAll(env, b, paths))
  {
    if paths != [] {
      ReindexAllWithin(env, a, b, paths[..|paths| - 1]);
    }
  }

  lemma RefreshWithin(env: Env, a: Index, b: Index, stale: seq<Path>, deleted: seq<Key>)
    requires Within(a, b)
    ensures Within(ReindexAll(env, RemoveAll(a, deleted), stale), ReindexAll(env, RemoveAll(b, deleted), stale))
  {
    RemoveAllWithin(a, b, deleted);
    ReindexAllWithin(env, RemoveAll(a, deleted), RemoveAll(b, deleted), stale);
  }

  function FileEvents(commands: seq<Command>): seq<Atom> {
    if commands == [] then [] else FileEvents(commands[..|commands| - 1]) + EventsOf(commands[|commands| - 1])
  }

  lemma FileEventsSnoc(commands: seq<Command>, c: Command)
    ensures FileEvents(commands + [c]) == FileEvents(commands) + EventsOf(c)
  {
    assert (commands + [c])[..|commands|] == commands;
  }

  lemma {:induction false} FileEventsConcat(a: seq<Command>, b: seq<Command>)
    ensures FileEvents(a + b) == FileEvents(a) + FileEvents(b)
  {
    if b == [] {
      assert a + b == a;
    } else {
      assert (a + b)[..|a + b| - 1] == a + b[..|b| - 1];
      FileEventsConcat(a, b[..|b| - 1]);
      Associate(FileEvents(a), FileEvents(b[..|b| - 1]), EventsOf(b[|b| - 1]));
    }
  }

  // ---------- Commands, drained ----------

  predicate IsFileCommand(c: Command) { c.OneEvent? || c.EventBatch? }

  predicate AllFileCommands(commands: seq<Command>) {
    commands == [] || (IsFileCommand(commands[|commands| - 1]) && AllFileCommands(commands[..|commands| - 1]))
  }

  /** What the manager does: a block of file commands in bulk, in some order, or one other
      command. */
  datatype Did = Bulk(block: seq<Command>, order: seq<Atom>) | Alone(command: Command)

  /** Only a single event drains what has arrived behind it. */
  predicate IsBlock(block: seq<Command>) {
    block != [] && AllFileCommands(block) && (block[0].OneEvent? || |block| == 1)
  }

  ghost predicate Proper(did: Did) {
    match did
    case Bulk(block, order) => IsBlock(block) && IsOrder(FileEvents(block), order)
    case Alone(c) => !IsFileCommand(c)
  }

  ghost predicate IsLog(log: seq<Did>) { forall i | 0 <= i < |log| :: Proper(log[i]) }

  /** The commands dealt with, in the order received. */
  function Expand(log: seq<Did>): seq<Command> {
    if log == [] then [] else Expand(log[..|log| - 1]) + Handled(log[|log| - 1])
  }

  function Handled(did: Did): seq<Command> {
    if did.Bulk? then did.block else [did.command]
  }

  function Do(env: Env, st: State, did: Did): State {
    if st.stopped then st
    else if did.Bulk? then st.(index := ApplyAtoms(env, st.index, did.order))
    else Step(env, st, did.command)
  }

  function Replay(env: Env, first: Index, log: seq<Did>): State {
    if log == [] then State(first, [], [], false)
    else Do(env, Replay(env, first, log[..|log| - 1]), log[|log| - 1])
  }

  lemma LogSnoc(env: Env, first: Index, log: seq<Did>, did: Did)
    ensures Expand(log + [did]) == Expand(log) + Handled(did)
    ensures Replay(env, first, log + [did]) == Do(env, Replay(env, first, log), did)
    ensures IsLog(log) && Proper(did) ==> IsLog(log + [did])
  {
    assert (log + [did])[..|log|] == log;
  }

  /** Every block agrees with one-by-one application in every order. */
  predicate AllAgree(env: Env, first: Index, log: seq<Did>) {
    log == [] ||
    var front, last := log[..|log| - 1], log[|log| - 1];
    AllAgree(env, first, front) && (last.Bulk? ==> Agrees(env, Replay(env, first, front).index, FileEvents(last.block)))
  }

  /** Every block at worst leaves stale entries. */
  predicate AllConsistent(env: Env, log: seq<Did>) {
    log == [] || (AllConsistent(env, log[..|log| - 1]) &&
                  (log[|log| - 1].Bulk? ==> Consistent(env, FileEvents(log[|log| - 1].block))))
  }

  /** No block cancels a path that is indexed at the time. */
  predicate NeverCancelsIndexed(env: Env, first: Index, log: seq<Did>) {
    log == [] ||
    var front, last := log[..|log| - 1], log[|log| - 1];
    && NeverCancelsIndexed(env, first, front)
    && (last.Bulk? ==> NoIndexedCancelled(env, Replay(env, first, front).index, FileEvents(last.block)))
  }

  ghost predicate WithinEach(a: seq<Index>, b: seq<Index>) {
    |a| == |b| && forall i | 0 <= i < |a| :: Within(a[i], b[i])
  }

  /** The replies of `st` are the answers read from its sources. */
  ghost predicate Answered(env: Env, st: State) {
    && |st.replies| == |st.sources|
    && forall i | 0 <= i < |st.replies| :: st.replies[i].answer == env.answer(st.replies[i].query, st.sources[i])
  }

  predicate SameQueries(a: seq<Reply>, b: seq<Reply>) {
    |a| == |b| && forall i | 0 <= i < |a| :: a[i].query == b[i].query
  }

  /** `got` answers the same questions as `exact` in the same order, each from an index; if
      `consistent`, from one with at least the entries it was read from in `exact`. */
  ghost predicate Tracks(env: Env, got: State, exact: State, consistent: bool) {
    && got.stopped == exact.stopped
    && SameQueries(got.replies, exact.replies) && Answered(env, got) && Answered(env, exact)
    && (consistent ==> Within(exact.index, got.index) && WithinEach(exact.sources, got.sources))
  }

  lemma StepTracks(env: Env, got: State, exact: State, c: Command, consistent: bool)
    requires Tracks(env, got, exact, consistent) && !IsFileCommand(c)
    ensures Tracks(env, Step(env, got, c), Step(env, exact, c), consistent)
  {
    if c.BackgroundRefresh? && consistent {
      RefreshWithin(env, exact.index, got.index, c.stale, c.deleted);
    }
  }

  lemma BulkTracks(env: Env, got: State, exact: State, atoms: seq<Atom>, order: seq<Atom>, consistent: bool)
    requires Tracks(env, got, exact, consistent) && IsOrder(atoms, order)
    requires consistent ==> Consistent(env, atoms)
    ensures Tracks(env, got.(index := ApplyAtoms(env, got.index, order)), exact.(index := ApplyAtoms(env, exact.index, atoms)), consistent)
  {
    if consistent {
      ConsistentOrder(env, exact.index, got.index, atoms, order);
    }
  }

  /** One at a time, a block of file commands applies its events one by one. */
  lemma {:induction false} RunBlock(env: Env, first: Index, commands: seq<Command>, block: seq<Command>)
    requires AllFileCommands(block)
    ensures var st := Run(env, first, commands);
            Run(env, first, commands + block) == if st.stopped then st else st.(index := ApplyAtoms(env, st.index, FileEvents(block)))
  {
    var st := Run(env, first, commands);
    if block == [] {
      assert commands + block == commands;
      assert ApplyAtoms(env, st.index, FileEvents([])) == st.index;
    } else {
      var front, c := block[..|block| - 1], block[|block| - 1];
      assert commands + block == commands + front + [c];
      RunBlock(env, first, commands, front);
      RunSnoc(env, first, commands + front, c);
      ApplyConcat(env, st.index, FileEvents(front), EventsOf(c));
    }
  }

  /** However the queue was cut into blocks and the blocks were ordered: no reply overtakes
      or misses a command.  Every question is answered from an index; with consistent
      blocks from one that has at least the entries it would have had one command at a time,
      and with agreeing ones everything is exactly as then. */
  lemma {:induction false} LogTracks(env: Env, first: Index, log: seq<Did>)
    requires IsLog(log)
    ensures var got, exact := Replay(env, first, log), Run(env, first, Expand(log));
            && Tracks(env, got, exact, AllConsistent(env, log))
            && (AllAgree(env, first, log) ==> got == exact)
  {
    if log != [] {
      var front, last := log[..|log| - 1], log[|log| - 1];
      var got, exact, consistent := Replay(env, first, front), Run(env, first, Expand(front)), AllConsistent(env, log);
      LogTracks(env, first, front);
      assert Tracks(env, got, exact, consistent);
      if last.Alone? {
        RunSnoc(env, first, Expand(front), last.command);
        StepTracks(env, got, exact, last.command, consistent);
      } else {
        var atoms := FileEvents(last.block);
        RunBlock(env, first, Expand(front), last.block);
        BulkTracks(env, got, exact, atoms, last.order, consistent);
        if AllAgree(env, first, log) {
          AgreeingOrder(env, got.index, atoms, last.order);
        }
      }
    }
  }

  // ---------- One spelling per file, over a whole run ----------

  /** No path is removed when the last thing reported of it is its creation or modification. */
  predicate NeverCancels(atoms: seq<Atom>) {
    atoms == [] ||
    (NeverCancels(atoms[..|atoms| - 1]) && !Cancels(LastKind(atoms[..|atoms| - 1], atoms[|atoms| - 1].path), atoms[|atoms| - 1].kind))
  }

  predicate Cancels(last: Option<Kind>, kind: Kind) {
    kind.Removed? && (last == Some(Created) || last == Some(Modified))
  }

  lemma {:induction false} LastKindConcat(a: seq<Atom>, b: seq<Atom>, p: Path)
    ensures LastKind(a + b, p) == if LastKind(b, p).Some? then LastKind(b, p) else LastKind(a, p)
  {
    if b == [] {
      assert a + b == a;
    } else {
      assert (a + b)[..|a + b| - 1] == a + b[..|b| - 1];
      LastKindConcat(a, b[..|b| - 1], p);
    }
  }

  lemma {:induction false} SuffixNeverCancels(a: seq<Atom>, b: seq<Atom>)
    requires NeverCancels(a + b)
    ensures NeverCancels(a) && NeverCancels(b)
  {
    if b == [] {
      assert a + b == a;
    } else {
      var front := b[..|b| - 1];
      assert (a + b)[..|a + b| - 1] == a + front;
      SuffixNeverCancels(a, front);
      LastKindConcat(a, front, b[|b| - 1].path);
    }
  }

  /** Then every path that was touched has a pending entry. */
  lemma {:induction false} NothingCancelled(atoms: seq<Atom>, p: Path)
    requires NeverCancels(atoms)
    ensures LastKind(atoms, p).Some? ==> Coalesced(atoms, p).Some?
    ensures Coalesced(atoms, p) == Some(Created) || Coalesced(atoms, p) == Some(Modified) ==>
              LastKind(atoms, p) == Some(Created) || LastKind(atoms, p) == Some(Modified)
  {
    if atoms != [] {
      NothingCancelled(atoms[..|atoms| - 1], p);
    }
  }

  lemma NeverCancelsNothing(env: Env, index: Index, atoms: seq<Atom>)
    requires NeverCancels(atoms)
    ensures NoIndexedCancelled(env, index, atoms)
  {
    forall p | p in Paths(atoms) ensures !Cancelled(env, atoms, p) {
      NothingCancelled(atoms, p);
      LastKindOfPaths(atoms, p);
    }
  }

  /** If every file keeps one spelling, all blocks are consistent, and they agree exactly if
      none cancels a path that is indexed at the time; so they do if no path is ever removed
      right after its creation or modification. */
  lemma {:induction false} OneSpellingLog(env: Env, first: Index, log: seq<Did>)
    requires OneSpelling(env, Paths(FileEvents(Expand(log))))
    ensures AllConsistent(env, log)
    ensures AllAgree(env, first, log) <==> NeverCancelsIndexed(env, first, log)
    ensures NeverCancels(FileEvents(Expand(log))) ==> NeverCancelsIndexed(env, first, log)
  {
    if log != [] {
      var front, last := log[..|log| - 1], log[|log| - 1];
      var before, atoms := FileEvents(Expand(front)), FileEvents(Handled(last));
      FileEventsConcat(Expand(front), Handled(last));
      PathsConcat(before, atoms);
      OneSpellingLog(env, first, front);
      var index := Replay(env, first, front).index;
      OneSpellingAgreesIff(env, index, atoms);
      if NeverCancels(before + atoms) {
        SuffixNeverCancels(before, atoms);
        NeverCancelsNothing(env, index, atoms);
      }
    }
  }

  // ---------- The manager ----------

  class IndexManager {
    const env: Env
    var index: Index
    var replies: seq<Reply>
    /** Commands still to arrive. */
    var incoming: seq<Command>

    ghost const first: Index
    ghost var taken: seq<Command>
    ghost var log: seq<Did>

    /** Index and replies are those of the log, and the log deals with the commands
        `handled`, each once and in order. */
    ghost predicate Handles(handled: seq<Command>)
      reads this
    {
      var st := Replay(env, first, log);
      && index == st.index && replies == st.replies
      && IsLog(log) && Expand(log) == handled
    }

    ghost predicate Stopped()
      reads this
    {
      Replay(env, first, log).stopped
    }

    constructor (env: Env, index: Index, commands: seq<Command>)
      ensures this.env == env && first == index && taken == [] && log == [] && incoming == commands
      ensures Handles([]) && !Stopped()
    {
      this.env, this.index, this.replies, this.incoming := env, index, [], commands;
      this.first, this.taken, this.log := index, [], [];
    }

    /** The next command. */
    method Receive() returns (c: Command)
      requires incoming != []
      modifies this`incoming, this`taken
      ensures c == old(incoming)[0] && incoming == old(incoming)[1..] && taken == old(taken) + [c]
      ensures taken + incoming == old(taken + incoming)
    {
      c := incoming[0];
      assert incoming == [c] + incoming[1..];
      incoming, taken := incoming[1..], taken + [c];
    }

    method ReindexFile(p: Path)
      modifies this`index
      ensures index == Reindex(env, old(index), p)
    {
      index := Put(index, env.key(p), None);
      if env.supported(p) {
        var symbols := env.disk(p);
        if symbols.Some? {
          index := Put(index, env.key(p), symbols);
        }
      }
      SameLookups(index, Reindex(env, old(index), p));
    }

    /** Deal with every pending path once, in an arbitrary order. */
    method ApplyCoalesced(coalesced: CoalescedEvents, ghost atoms: seq<Atom>) returns (ghost order: seq<Atom>)
      requires coalesced.Holds(atoms)
      modifies this`index
      ensures IsOrder(atoms, order) && index == ApplyAtoms(env, old(index), order)
    {
      var events, todo := coalesced.events, coalesced.events.Keys;
      order := [];
      while todo != {}
        invariant todo <= events.Keys && Dealt(events, todo, order)
        invariant index == ApplyAtoms(env, old(index), order)
      {
        var p :| p in todo;
        match events[p] {
          case Removed =>
            if ShouldIndex(env, p) { index := Put(index, env.key(p), None); }
          case _ =>
            if ShouldIndex(env, p) { ReindexFile(p); }
        }
        DealtOneMore(env, old(index), events, todo, order, p);
        order := order + [Atom(p, events[p])];
        todo := todo - {p};
      }
      DealtIsOrder(events, atoms, order);
    }

    /** Apply the coalesced events of a block of commands. */
    method Flush(coalesced: CoalescedEvents, ghost block: seq<Command>, ghost before: seq<Command>)
      requires coalesced.Holds(FileEvents(block)) && IsBlock(block)
      requires Handles(before) && !Stopped()
      modifies this`index, this`log
      ensures Handles(before + block) && !Stopped()
      ensures |log| == |old(log)| + 1 && log[..|old(log)|] == old(log) && log[|old(log)|].Bulk? && log[|old(log)|].block == block
    {
      ghost var order := ApplyCoalesced(coalesced, FileEvents(block));
      LogSnoc(env, first, log, Bulk(block, order));
      log := log + [Bulk(block, order)];
    }

    /** Process a command.  A file event first drains what has arrived behind it, up to
        the first other command, which is processed after the flush; that one never
        drains, so the recursion is one level deep. */
    method ProcessCommandCoalesced(command: Command, ghost before: seq<Command>) returns (goOn: bool)
      requires taken == before + [command] && Handles(before) && !Stopped()
      modifies this`index, this`replies, this`incoming, this`taken, this`log
      ensures Handles(taken) && (goOn <==> !Stopped())
      ensures taken + incoming == old(taken + incoming) && |incoming| <= |old(incoming)|
      decreases if command.OneEvent? then 1 else 0
    {
      if command.OneEvent? {
        var coalesced := new CoalescedEvents();
        AddCommand(coalesced, command, []);
        var other, block := Drain(coalesced, command, before);
        Flush(coalesced, block, before);
        if other.Some? {
          goOn := ProcessCommandCoalesced(other.value, before + block);
        } else {
          goOn := true;
        }
      } else {
        goOn := ProcessAlone(command, before);
      }
    }

    /** Coalesce what has arrived, until the queue is empty or another command turns up. */
    method Drain(coalesced: CoalescedEvents, command: Command, ghost before: seq<Command>)
      returns (other: Option<Command>, ghost block: seq<Command>)
      requires command.OneEvent? && coalesced.Holds(FileEvents([command])) && taken == before + [command]
      modifies this`incoming, this`taken, coalesced
      ensures coalesced.Holds(FileEvents(block)) && IsBlock(block)
      ensures if other.Some? then taken == before + block + [other.value] && !IsFileCommand(other.value)
              else taken == before + block
      ensures taken + incoming == old(taken + incoming) && |incoming| <= |old(incoming)|
    {
      block := [command];
      var arrived: bool := *;
      while arrived && incoming != []
        invariant coalesced.Holds(FileEvents(block)) && taken == before + block
        invariant IsBlock(block) && block[0].OneEvent?
        invariant taken + incoming == old(taken + incoming) && |incoming| <= |old(incoming)|
        decreases |incoming|
      {
        var next := Receive();
        if !IsFileCommand(next) {
          return Some(next), block;
        }
        AddCommand(coalesced, next, block);
        BlockOneMore(before, block, next);
        block := block + [next];
        arrived := *;
      }
      other := None;
    }

    /** A command that does not drain. */
    method ProcessAlone(command: Command, ghost before: seq<Command>) returns (goOn: bool)
      requires taken == before + [command] && !command.OneEvent? && Handles(before) && !Stopped()
      modifies this`index, this`replies, this`log
      ensures Handles(taken) && (goOn <==> !Stopped())
    {
      if command.EventBatch? {
        var coalesced := new CoalescedEvents();
        AddCommand(coalesced, command, []);
        Flush(coalesced, [command], before);
      } else {
        ProcessRequest(command, Replay(env, first, log));
        LogSnoc(env, first, log, Alone(command));
        log := log + [Alone(command)];
      }
      goOn := !command.Shutdown?;
    }

    method ProcessRequest(command: Command, ghost st: State)
      requires !IsFileCommand(command) && index == st.index && replies == st.replies && !st.stopped
      modifies this`index, this`replies
      ensures index == Step(env, st, command).index && replies == Step(env, st, command).replies
    {
      match command {
        case Rebuild =>
          index := env.built;
        case BackgroundRefresh(stale, deleted) =>
          ProcessBackgroundRefresh(stale, deleted);
        case Ask(query) =>
          replies := replies + [Reply(query, env.answer(query, index))];
        case Shutdown =>
      }
    }

    method AddCommand(coalesced: CoalescedEvents, c: Command, ghost block: seq<Command>)
      requires coalesced.Holds(FileEvents(block)) && IsFileCommand(c)
      modifies coalesced
      ensures coalesced.Holds(FileEvents(block + [c]))
    {
      FileEventsSnoc(block, c);
      match c {
        case OneEvent(event) => coalesced.Add(event, FileEvents(block));
        case EventBatch(events) => AddAll(coalesced, events, FileEvents(block));
      }
    }

    method AddAll(coalesced: CoalescedEvents, events: seq<FileEvent>, ghost atoms: seq<Atom>)
      requires coalesced.Holds(atoms)
      modifies coalesced
      ensures coalesced.Holds(atoms + AtomsOfAll(events))
    {
      assert atoms + AtomsOfAll(events[..0]) == atoms;
      for i := 0 to |events|
        invariant coalesced.Holds(atoms + AtomsOfAll(events[..i]))
      {
        coalesced.Add(events[i], atoms + AtomsOfAll(events[..i]));
        assert events[..i + 1][..i] == events[..i];
        assert atoms + AtomsOfAll(events[..i]) + AtomsOf(events[i]) == atoms + AtomsOfAll(events[..i + 1]);
      }
      assert events[..|events|] == events;
    }

    method ProcessBackgroundRefresh(stale: seq<Path>, deleted: seq<Key>)
      modifies this`index
      ensures index == ReindexAll(env, RemoveAll(old(index), deleted), stale)
      ensures Refreshed(env, old(index), stale, deleted, index)
    {
      RefreshMeans(env, index, stale, deleted);
      assert deleted[..0] == [] && stale[..0] == [];
      for i := 0 to |deleted|
        invariant index == RemoveAll(old(index), deleted[..i])
      {
        assert deleted[..i + 1][..i] == deleted[..i];
        index := Put(index, deleted[i], None);
      }
      assert deleted[..|deleted|] == deleted;
      for i := 0 to |stale|
        invariant index == ReindexAll(env, RemoveAll(old(index), deleted), stale[..i])
      {
        assert stale[..i + 1][..i] == stale[..i];
        if env.supported(stale[i]) {
          ReindexFile(stale[i]);
        }
      }
      assert stale[..|stale|] == stale;
    }

    /** Receive and process until shutdown, or until no sender is left.  However commands
        arrive, the manager deals with the queue up to a shutdown, each command once and in
        order: blocks of file commands in bulk, every other command by itself.  So every
        question is answered, in order and from the index as that leaves it; with
        consistent blocks from an index that has at least the entries it would have had one
        command at a time, and with agreeing ones exactly as then. */
    method RunLoop()
      requires Handles([]) && taken == [] && !Stopped()
      modifies this`index, this`replies, this`incoming, this`taken, this`log
      ensures Handles(taken) && taken + incoming == old(incoming) && (Stopped() || incoming == [])
      ensures var got, exact := Replay(env, first, log), Run(env, first, old(incoming));
              && Tracks(env, got, exact, AllConsistent(env, log))
              && (AllAgree(env, first, log) ==> got == exact)
    {
      var goOn := true;
      while goOn && incoming != []
        invariant Handles(taken) && taken + incoming == old(incoming)
        invariant goOn <==> !Stopped()
        decreases |incoming|
      {
        ghost var before := taken;
        var command := Receive();
        goOn := ProcessCommandCoalesced(command, before);
      }
      LogTracks(env, first, log);
      if Stopped() {
        StoppedStays(env, first, taken, incoming);
      } else {
        assert taken == old(incoming);
      }
    }
  }

  lemma BlockOneMore(before: seq<Command>, block: seq<Command>, next: Command)
    requires IsBlock(block) && block[0].OneEvent? && IsFileCommand(next)
    ensures IsBlock(block + [next])
    ensures before + block + [next] == before + (block + [next])
  {
    assert (block + [next])[..|block|] == block;
  }

  /** The paths not in `todo` have been dealt with, each once. */
  ghost predicate Dealt(events: map<Path, Kind>, todo: set<Path>, order: seq<Atom>) {
    && NoRepeats(order)
    && forall p :: LastKind(order, p) == if p in events && p !in todo then Some(events[p]) else None
  }

  lemma DealtOneMore(env: Env, index: Index, events: map<Path, Kind>, todo: set<Path>, order: seq<Atom>, p: Path)
    requires Dealt(events, todo, order) && p in todo && todo <= events.Keys
    ensures Dealt(events, todo - {p}, order + [Atom(p, events[p])])
    ensures ApplyAtoms(env, index, order + [Atom(p, events[p])]) == Apply(env, ApplyAtoms(env, index, order), p, events[p])
  {
    var more := order + [Atom(p, events[p])];
    assert more[..|order|] == order;
    assert p in events;
    LastKindOfPaths(order, p);
  }

  lemma DealtIsOrder(events: map<Path, Kind>, atoms: seq<Atom>, order: seq<Atom>)
    requires Dealt(events, {}, order) && forall p :: Entry(events, p) == Coalesced(atoms, p)
    ensures IsOrder(atoms, order)
  {
    forall p ensures LastKind(order, p) == Coalesced(atoms, p) {
      assert Entry(events, p) == Coalesced(atoms, p);
    }
  }

  lemma PathsConcat(a: seq<Atom>, b: seq<Atom>)
    ensures Paths(a + b) == Paths(a) + Paths(b)
  {
    forall x | x in a + b ensures x.path in Paths(a) + Paths(b) {
    }
  }
}
