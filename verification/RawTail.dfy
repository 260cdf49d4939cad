/** The bounded tail of raw output kept for timeout diagnostics. */
module RawTail {
  import opened Options

  const RAW_TAIL_CAP: nat := 2048

  /** The last `n` bytes of `s`, or all of it. */
  function LastN(s: seq<Byte>, n: nat): seq<Byte> {
    if |s| <= n then s else s[|s| - n..]
  }

  class Tail {
    var bytes: seq<Byte>
    ghost var pushed: seq<Byte>

    ghost predicate Valid()
      reads this
    {
      bytes == LastN(pushed, RAW_TAIL_CAP)
    }

    constructor ()
      ensures Valid() && pushed == []
    {
      bytes, pushed := [], [];
    }

    /** Evict the oldest bytes, then append. */
    method Push(more: seq<Byte>)
      requires Valid()
      modifies this
      ensures Valid() && pushed == old(pushed) + more
      ensures bytes == pushed[if |pushed| <= 2048 then 0 else |pushed| - 2048..]
    {
      LastNOfConcat(pushed, more, RAW_TAIL_CAP);
      pushed := pushed + more;
      if |more| >= RAW_TAIL_CAP {
        bytes := [];
        bytes := bytes + more[|more| - RAW_TAIL_CAP..];
        return;
      }
      ghost var was := bytes;
      while |bytes| + |more| > RAW_TAIL_CAP
        invariant |bytes| <= |was| && bytes == was[|was| - |bytes|..]
        invariant |was| + |more| > RAW_TAIL_CAP ==> |bytes| + |more| >= RAW_TAIL_CAP
        invariant |was| + |more| <= RAW_TAIL_CAP ==> bytes == was
        invariant pushed == old(pushed) + more
        decreases |bytes|
      {
        bytes := bytes[1..];
      }
      bytes := bytes + more;
    }
  }

  /** Keeping only the tail between pushes loses nothing of the tail of everything pushed. */
  lemma LastNOfConcat(a: seq<Byte>, b: seq<Byte>, n: nat)
    ensures LastN(a + b, n) == LastN(LastN(a, n) + b, n)
    ensures |b| >= n ==> LastN(a + b, n) == b[|b| - n..]
  {
  }
}
