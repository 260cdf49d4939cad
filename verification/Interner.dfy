/** The arena string interner: one byte buffer, `(start, len)` offsets of widths 32 and
16 bits, and hash buckets of ids.  The hash function is arbitrary. */
module Interner {
  import opened Options

  type Hash = Bytes -> nat

  const U16: nat := 0x1_0000
  const U32: nat := 0x1_0000_0000

  // ---------- The abstract interner: a list without repetitions ----------

  /** Position of `s`, or the length if absent. */
  function IndexOf(strings: seq<Bytes>, s: Bytes): (i: nat)
    ensures i <= |strings| && (i < |strings| ==> strings[i] == s)
    ensures forall j | 0 <= j < i :: strings[j] != s
  {
    if strings == [] || strings[0] == s then 0 else 1 + IndexOf(strings[1..], s)
  }

  function Insert(strings: seq<Bytes>, s: Bytes): seq<Bytes> {
    if IndexOf(strings, s) < |strings| then strings else strings + [s]
  }

  function InsertAll(strings: seq<Bytes>, xs: seq<Bytes>): seq<Bytes> {
    if xs == [] then strings else Insert(InsertAll(strings, xs[..|xs| - 1]), xs[|xs| - 1])
  }

  predicate Distinct(strings: seq<Bytes>) {
    forall i, j | 0 <= i < j < |strings| :: strings[i] != strings[j]
  }

  lemma {:induction false} IndexOfAppend(strings: seq<Bytes>, s: Bytes, t: Bytes)
    ensures IndexOf(strings + [s], t) ==
            if IndexOf(strings, t) < |strings| then IndexOf(strings, t)
            else if s == t then |strings| else |strings| + 1
  {
    if strings == [] {
      assert strings + [s] == [s] && [s][1..] == [];
    } else if strings[0] != t {
      assert (strings + [s])[1..] == strings[1..] + [s];
      IndexOfAppend(strings[1..], s, t);
    }
  }

  lemma NotIndexed(strings: seq<Bytes>, s: Bytes)
    ensures IndexOf(strings, s) < |strings| <==> s in strings
  {
    if s in strings {
      var i :| 0 <= i < |strings| && strings[i] == s;
    }
  }

  lemma InsertKeeps(strings: seq<Bytes>, s: Bytes)
    requires Distinct(strings)
    ensures strings <= Insert(strings, s) && Distinct(Insert(strings, s))
    ensures IndexOf(Insert(strings, s), s) == IndexOf(strings, s) < |Insert(strings, s)|
    ensures forall t | IndexOf(strings, t) < |strings| :: IndexOf(Insert(strings, s), t) == IndexOf(strings, t)
  {
    NotIndexed(strings, s);
    IndexOfAppend(strings, s, s);
    forall t | IndexOf(strings, t) < |strings| ensures IndexOf(Insert(strings, s), t) == IndexOf(strings, t) {
      IndexOfAppend(strings, s, t);
    }
  }

  /** Over any run of insertions, the id handed out for `xs[i]` is its id for ever, and
      two insertions share an id exactly when they insert the same bytes. */
  lemma {:induction false} IdsAreStable(strings: seq<Bytes>, xs: seq<Bytes>, i: nat, j: nat)
    requires Distinct(strings) && i < |xs| && j < |xs|
    ensures var final := InsertAll(strings, xs);
            && Distinct(final)
            && IndexOf(InsertAll(strings, xs[..i]), xs[i]) == IndexOf(final, xs[i]) < |final|
            && (IndexOf(final, xs[i]) == IndexOf(final, xs[j]) <==> xs[i] == xs[j])
  {
    StaysInserted(strings, xs, i);
    StaysInserted(strings, xs, j);
  }

  lemma {:induction false} InsertAllDistinct(strings: seq<Bytes>, xs: seq<Bytes>)
    requires Distinct(strings)
    ensures Distinct(InsertAll(strings, xs))
  {
    if xs != [] {
      InsertAllDistinct(strings, xs[..|xs| - 1]);
      InsertKeeps(InsertAll(strings, xs[..|xs| - 1]), xs[|xs| - 1]);
    }
  }

  lemma {:induction false} StaysInserted(strings: seq<Bytes>, xs: seq<Bytes>, i: nat)
    requires Distinct(strings) && i < |xs|
    ensures Distinct(InsertAll(strings, xs))
    ensures IndexOf(InsertAll(strings, xs[..i]), xs[i]) == IndexOf(InsertAll(strings, xs), xs[i]) < |InsertAll(strings, xs)|
  {
    var front := xs[..|xs| - 1];
    InsertAllDistinct(strings, front);
    InsertKeeps(InsertAll(strings, front), xs[|xs| - 1]);
    if i < |front| {
      assert front[..i] == xs[..i] && front[i] == xs[i];
      StaysInserted(strings, front, i);
    }
  }

  /** The ids of `xs`, one by one. */
  predicate Denote(ids: seq<nat>, strings: seq<Bytes>, xs: seq<Bytes>) {
    |ids| == |xs| && forall i | 0 <= i < |xs| :: ids[i] == IndexOf(strings, xs[i]) < |strings|
  }

  /** The bytes a run of insertions adds at most. */
  function Size(xs: seq<Bytes>): nat {
    if xs == [] then 0 else |xs[0]| + Size(xs[1..])
  }

  lemma DenoteOneMore(ids: seq<nat>, strings: seq<Bytes>, xs: seq<Bytes>, s: Bytes)
    requires Distinct(strings) && Denote(ids, strings, xs)
    ensures var next := Insert(strings, s); Denote(ids + [IndexOf(next, s)], next, xs + [s])
  {
    InsertKeeps(strings, s);
    assert forall i | 0 <= i < |xs| :: (xs + [s])[i] == xs[i];
  }

  lemma OneMoreInserted(was: seq<Bytes>, xs: seq<Bytes>, i: nat)
    requires i < |xs|
    ensures xs[..i + 1] == xs[..i] + [xs[i]] && xs[i] in xs
    ensures Size(xs[i..]) == |xs[i]| + Size(xs[i + 1..])
    ensures InsertAll(was, xs[..i + 1]) == Insert(InsertAll(was, xs[..i]), xs[i])
  {
    assert xs[..i + 1][..i] == xs[..i] && xs[i..][1..] == xs[i + 1..];
  }

  // ---------- The concrete layout ----------

  /** The bytes an offset denotes, if they lie in the arena. */
  function Slice(arena: Bytes, at: (nat, nat)): Option<Bytes> {
    if at.0 + at.1 <= |arena| then Some(arena[at.0..at.0 + at.1]) else None
  }

  predicate InRange(arena: Bytes, offsets: seq<(nat, nat)>) {
    forall k | 0 <= k < |offsets| :: offsets[k].0 + offsets[k].1 <= |arena|
  }

  /** The interned strings, by id. */
  function Strings(arena: Bytes, offsets: seq<(nat, nat)>): (s: seq<Bytes>)
    requires InRange(arena, offsets)
    ensures |s| == |offsets|
  {
    if offsets == [] then []
    else
      var (start, len) := offsets[|offsets| - 1];
      Strings(arena, offsets[..|offsets| - 1]) + [arena[start..start + len]]
  }

  lemma {:induction false} StringsAt(arena: Bytes, offsets: seq<(nat, nat)>, k: nat)
    requires InRange(arena, offsets) && k < |offsets|
    ensures Slice(arena, offsets[k]) == Some(Strings(arena, offsets)[k])
  {
    if k < |offsets| - 1 {
      StringsAt(arena, offsets[..|offsets| - 1], k);
    }
  }

  lemma StringsAtAll(arena: Bytes, offsets: seq<(nat, nat)>)
    ensures InRange(arena, offsets) ==> forall k | 0 <= k < |offsets| :: Slice(arena, offsets[k]) == Some(Strings(arena, offsets)[k])
  {
    if InRange(arena, offsets) {
      forall k | 0 <= k < |offsets| ensures Slice(arena, offsets[k]) == Some(Strings(arena, offsets)[k]) {
        StringsAt(arena, offsets, k);
      }
    }
  }

  /** Append `id` to the bucket of `h`. */
  function Push(buckets: map<nat, seq<nat>>, h: nat, id: nat): map<nat, seq<nat>> {
    buckets[h := (if h in buckets then buckets[h] else []) + [id]]
  }

  /** The lookup table as a function of the rest: ids in order, skipping unreadable offsets. */
  function Buckets(hash: Hash, arena: Bytes, offsets: seq<(nat, nat)>): map<nat, seq<nat>>
    decreases |offsets|
  {
    if offsets == [] then map[]
    else
      var k := |offsets| - 1;
      var rest := Buckets(hash, arena, offsets[..k]);
      match Slice(arena, offsets[k])
      case Some(x) => Push(rest, hash(x), k)
      case None => rest
  }

  /** A bucket holds exactly the ids whose strings have its hash. */
  lemma {:induction false} BucketsMean(hash: Hash, arena: Bytes, offsets: seq<(nat, nat)>, h: nat, id: nat)
    ensures var b := Buckets(hash, arena, offsets);
            (h in b && id in b[h]) <==>
            id < |offsets| && Slice(arena, offsets[id]).Some? && hash(Slice(arena, offsets[id]).value) == h
    decreases |offsets|
  {
    if offsets != [] {
      var k := |offsets| - 1;
      BucketsMean(hash, arena, offsets[..k], h, id);
    }
  }

  /** Growing the arena does not disturb the buckets of what is in range. */
  lemma {:induction false} BucketsSurviveGrowth(hash: Hash, arena: Bytes, more: Bytes, offsets: seq<(nat, nat)>)
    requires InRange(arena, offsets)
    ensures Buckets(hash, arena + more, offsets) == Buckets(hash, arena, offsets)
    decreases |offsets|
  {
    if offsets != [] {
      var k := |offsets| - 1;
      BucketsSurviveGrowth(hash, arena, more, offsets[..k]);
      var (start, len) := offsets[k];
      assert (arena + more)[start..start + len] == arena[start..start + len];
    }
  }

  class StringInterner {
    const hash: Hash
    var arena: Bytes
    var lookup: map<nat, seq<nat>>
    var offsets: seq<(nat, nat)>

    ghost predicate Valid()
      reads this
    {
      && InRange(arena, offsets)
      && Distinct(Strings(arena, offsets))
      && lookup == Buckets(hash, arena, offsets)
    }

    /** The interned strings, in id order. */
    ghost function Contents(): seq<Bytes>
      reads this
      requires InRange(arena, offsets)
    {
      Strings(arena, offsets)
    }

    constructor (hash: Hash)
      ensures Valid() && Contents() == [] && this.hash == hash
    {
      this.hash := hash;
      arena, lookup, offsets := [], map[], [];
    }

    /** Rebuild the lookup table from serialized parts. */
    constructor FromParts(hash: Hash, arena: Bytes, offsets: seq<(nat, nat)>)
      ensures this.hash == hash && this.arena == arena && this.offsets == offsets
      ensures lookup == Buckets(hash, arena, offsets)
      ensures InRange(arena, offsets) && Distinct(Strings(arena, offsets)) ==>
                Valid() && Contents() == Strings(arena, offsets)
    {
      this.hash, this.arena, this.offsets := hash, arena, offsets;
      var table: map<nat, seq<nat>> := map[];
      assert offsets[..0] == [];
      for idx := 0 to |offsets|
        invariant table == Buckets(hash, arena, offsets[..idx])
      {
        assert offsets[..idx + 1][..idx] == offsets[..idx];
        match Slice(arena, offsets[idx])
        case Some(bytes) => table := Push(table, hash(bytes), idx);
        case None =>
      }
      assert offsets[..|offsets|] == offsets;
      lookup := table;
    }

    function GetBytes(id: nat): (r: Option<Bytes>)
      reads this
      ensures Valid() ==> r == if id < |Contents()| then Some(Contents()[id]) else None
    {
      StringsAtAll(arena, offsets);
      if id < |offsets| then Slice(arena, offsets[id]) else None
    }

    /** Scan the bucket of the hash; compare contents, so collisions do no harm. */
    method GetBytesId(s: Bytes) returns (r: Option<nat>)
      requires Valid()
      ensures r == if s in Contents() then Some(IndexOf(Contents(), s)) else None
    {
      var h := hash(s);
      if h in lookup {
        var ids := lookup[h];
        for k := 0 to |ids|
          invariant forall m | 0 <= m < k :: GetBytes(ids[m]) != Some(s)
        {
          if GetBytes(ids[k]) == Some(s) {
            OnlyIndex(Contents(), s, ids[k]);
            return Some(ids[k]);
          }
        }
        if s in Contents() {
          var i :| 0 <= i < |Contents()| && Contents()[i] == s;
          StringsAt(arena, offsets, i);
          BucketsMean(hash, arena, offsets, h, i);
        }
      } else if s in Contents() {
        var i :| 0 <= i < |Contents()| && Contents()[i] == s;
        StringsAt(arena, offsets, i);
        BucketsMean(hash, arena, offsets, h, i);
      }
      return None;
    }

    /** Intern `s`.  While the layout's widths suffice, this inserts into the abstract
        list.  A new string is always appended, with start, length and id cut to their
        widths; `NewIdDenotesIff` says when its id denotes it. */
    method InternBytes(s: Bytes) returns (id: nat)
      requires Valid()
      modifies this`arena, this`offsets, this`lookup
      ensures s in old(Contents()) ==>
                arena == old(arena) && offsets == old(offsets) && lookup == old(lookup) && Valid() &&
                id == IndexOf(old(Contents()), s) < |old(Contents())|
      ensures s !in old(Contents()) && |s| < U16 && |old(arena)| < U32 && |old(offsets)| < U32 ==>
                Valid() && Contents() == old(Contents()) + [s] && id == |old(Contents())|
      ensures s !in old(Contents()) ==>
                && id == |old(offsets)| % U32
                && arena == old(arena) + s && offsets == Appended(old(arena), old(offsets), s)
                && lookup == Push(old(lookup), hash(s), id)
    {
      var found := GetBytesId(s);
      if found.Some? {
        return found.value;
      }
      id := Append(s);
    }

    /** Store a string that is not interned yet. */
    method Append(s: Bytes) returns (id: nat)
      requires Valid() && s !in Contents()
      modifies this`arena, this`offsets, this`lookup
      ensures |s| < U16 && |old(arena)| < U32 && |old(offsets)| < U32 ==>
                Valid() && Contents() == old(Contents()) + [s]
      ensures id == |old(offsets)| % U32
      ensures arena == old(arena) + s && offsets == Appended(old(arena), old(offsets), s)
      ensures lookup == Push(old(lookup), hash(s), id)
    {
      id := |offsets| % U32;
      if |s| < U16 && |arena| < U32 {
        AppendedKeeps(hash, arena, offsets, s);
      }
      GrowTo(arena + s, Appended(arena, offsets, s), Push(lookup, hash(s), id));
    }

    /** Within the widths, interning inserts into the abstract list. */
    method InternWithin(s: Bytes) returns (id: nat)
      requires Valid() && |s| < U16 && |arena| < U32 && |offsets| < U32
      modifies this`arena, this`offsets, this`lookup
      ensures Valid() && Contents() == Insert(old(Contents()), s) && id == IndexOf(Contents(), s)
      ensures |arena| <= |old(arena)| + |s| && |offsets| <= |old(offsets)| + 1
    {
      InsertKeeps(Contents(), s);
      NotIndexed(Contents(), s);
      id := InternBytes(s);
    }

    /** Intern one string after the other.  As long as no string is longer than 65535 bytes
        and neither the arena nor the ids outgrow 32 bits, the run inserts into the abstract
        list, every id handed out denotes its string to the end, and ids are shared exactly
        by equal strings. */
    method InternAll(xs: seq<Bytes>) returns (ids: seq<nat>)
      requires Valid()
      requires |arena| + Size(xs) < U32 && |offsets| + |xs| < U32
      requires forall x | x in xs :: |x| < U16
      modifies this`arena, this`offsets, this`lookup
      ensures Valid() && Contents() == InsertAll(old(Contents()), xs)
      ensures Denote(ids, Contents(), xs)
    {
      ids := [];
      ghost var was, room, free := Contents(), U32 - |arena|, U32 - |offsets|;
      for i := 0 to |xs|
        invariant Valid() && Contents() == InsertAll(was, xs[..i])
        invariant |arena| + Size(xs[i..]) <= U32 - room + Size(xs) && |offsets| <= U32 - free + i
        invariant Denote(ids, Contents(), xs[..i])
      {
        OneMoreInserted(was, xs, i);
        DenoteOneMore(ids, Contents(), xs[..i], xs[i]);
        var id := InternWithin(xs[i]);
        ids := ids + [id];
      }
      assert xs[..|xs|] == xs;
    }

    method GrowTo(arena: Bytes, offsets: seq<(nat, nat)>, lookup: map<nat, seq<nat>>)
      modifies this`arena, this`offsets, this`lookup
      ensures this.arena == arena && this.offsets == offsets && this.lookup == lookup
    {
      this.arena, this.offsets, this.lookup := arena, offsets, lookup;
    }
  }

  /** The layout after appending `s`; start and length are cut to their widths. */
  function Appended(arena: Bytes, offsets: seq<(nat, nat)>, s: Bytes): seq<(nat, nat)> {
    offsets + [(|arena| % U32, |s| % U16)]
  }

  /** Within the widths of the layout, appending keeps strings, distinctness and buckets in step. */
  lemma {:induction false} AppendedKeeps(hash: Hash, arena: Bytes, offsets: seq<(nat, nat)>, s: Bytes)
    requires |arena| < U32 && |s| < U16
    requires InRange(arena, offsets) && Distinct(Strings(arena, offsets)) && s !in Strings(arena, offsets)
    ensures var offsets' := Appended(arena, offsets, s);
            && InRange(arena + s, offsets')
            && Strings(arena + s, offsets') == Strings(arena, offsets) + [s]
            && Distinct(Strings(arena + s, offsets'))
            && Buckets(hash, arena + s, offsets') == Push(Buckets(hash, arena, offsets), hash(s), |offsets|)
  {
    Uncut(arena, offsets, s);
    StringsAndDistinct(arena, offsets, s);
    AppendedBuckets(hash, arena, offsets, s);
  }

  lemma Uncut(arena: Bytes, offsets: seq<(nat, nat)>, s: Bytes)
    requires |arena| < U32 && |s| < U16
    ensures Appended(arena, offsets, s) == offsets + [(|arena|, |s|)]
  {
  }

  lemma {:induction false} StringsAndDistinct(arena: Bytes, offsets: seq<(nat, nat)>, s: Bytes)
    requires InRange(arena, offsets) && Distinct(Strings(arena, offsets)) && s !in Strings(arena, offsets)
    ensures var offsets' := offsets + [(|arena|, |s|)];
            && InRange(arena + s, offsets')
            && Strings(arena + s, offsets') == Strings(arena, offsets) + [s]
            && Distinct(Strings(arena + s, offsets'))
  {
    AppendedStrings(arena, offsets, s);
    DistinctAppend(Strings(arena, offsets), s);
  }

  lemma {:induction false} AppendedStrings(arena: Bytes, offsets: seq<(nat, nat)>, s: Bytes)
    requires InRange(arena, offsets)
    ensures InRange(arena + s, offsets + [(|arena|, |s|)])
    ensures Strings(arena + s, offsets + [(|arena|, |s|)]) == Strings(arena, offsets) + [s]
  {
    var offsets' := offsets + [(|arena|, |s|)];
    assert offsets'[..|offsets|] == offsets;
    StringsSurviveGrowth(arena, s, offsets);
    LastSlice(arena, s);
  }

  lemma {:induction false} StringsSurviveGrowth(arena: Bytes, more: Bytes, offsets: seq<(nat, nat)>)
    requires InRange(arena, offsets)
    ensures Strings(arena + more, offsets) == Strings(arena, offsets)
  {
    if offsets != [] {
      var (start, len) := offsets[|offsets| - 1];
      StringsSurviveGrowth(arena, more, offsets[..|offsets| - 1]);
      assert (arena + more)[start..start + len] == arena[start..start + len];
    }
  }

  lemma {:induction false} AppendedBuckets(hash: Hash, arena: Bytes, offsets: seq<(nat, nat)>, s: Bytes)
    requires InRange(arena, offsets)
    ensures Buckets(hash, arena + s, offsets + [(|arena|, |s|)]) == Push(Buckets(hash, arena, offsets), hash(s), |offsets|)
  {
    BucketsSurviveGrowth(hash, arena, s, offsets);
    var grown := arena + s;
    BucketsUnfold(hash, grown, offsets, (|arena|, |s|));
    LastSlice(arena, s);
  }

  lemma LastSlice(arena: Bytes, s: Bytes)
    ensures Slice(arena + s, (|arena|, |s|)) == Some(s)
  {
    assert (arena + s)[|arena|..|arena| + |s|] == s;
  }

  lemma BucketsUnfold(hash: Hash, arena: Bytes, offsets: seq<(nat, nat)>, at: (nat, nat))
    ensures Buckets(hash, arena, offsets + [at]) ==
            match Slice(arena, at)
            case Some(x) => Push(Buckets(hash, arena, offsets), hash(x), |offsets|)
            case None => Buckets(hash, arena, offsets)
  {
    assert (offsets + [at])[..|offsets|] == offsets;
  }

  lemma DistinctAppend(strings: seq<Bytes>, s: Bytes)
    requires Distinct(strings) && s !in strings
    ensures Distinct(strings + [s])
  {
  }

  /** What the last entry denotes once start and length are cut to their widths. */
  lemma WrappedBytes(arena: Bytes, offsets: seq<(nat, nat)>, s: Bytes)
    ensures Slice(arena + s, Appended(arena, offsets, s)[|offsets|]) == Some(s) <==>
            |s| < U16 && s <= (arena + s)[|arena| % U32..]
  {
    var grown, start, len := arena + s, |arena| % U32, |s| % U16;
    assert start <= |arena| && Appended(arena, offsets, s)[|offsets|] == (start, len);
    var tail := grown[start..];
    if len <= |tail| {
      assert tail[..len] == grown[start..start + len];
      if s <= tail && |s| < U16 {
        assert len == |s| && tail[..len] == s;
      }
      if tail[..len] == s {
        assert len == |s| && s <= tail;
      }
    }
  }

  /** After a new string has been appended its id denotes it if and only if it is at most
      65535 bytes long and the bytes at the start so cut are its own, which they are in an
      arena below `2^32` bytes. */
  lemma NewIdDenotesIff(interner: StringInterner, arena: Bytes, offsets: seq<(nat, nat)>, s: Bytes)
    requires interner.arena == arena + s && interner.offsets == Appended(arena, offsets, s)
    ensures interner.GetBytes(|offsets|) == Some(s) <==> |s| < U16 && s <= interner.arena[|arena| % U32..]
    ensures |arena| < U32 ==> (interner.GetBytes(|offsets|) == Some(s) <==> |s| < U16)
  {
    WrappedBytes(arena, offsets, s);
    if |arena| < U32 {
      assert interner.arena[|arena|..] == s;
    }
  }

  lemma OnlyIndex(strings: seq<Bytes>, s: Bytes, i: nat)
    requires Distinct(strings) && i < |strings| && strings[i] == s
    ensures IndexOf(strings, s) == i
  {
  }
}
