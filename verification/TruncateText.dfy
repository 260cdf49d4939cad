/** `truncate_text_to_bytes` on the UTF-8 bytes of a string (RFC 3629, section 3). */
module TruncateText {
  import opened Options
  import opened Sequences
  import opened Text

  const MARKER_RESERVE: nat := 64

  /** Bytes of one character. */
  function Encode(c: char): (b: seq<nat>)
    ensures |b| == Width(c) && 1 <= |b| <= 4
    ensures !IsContinuation(b[0]) && forall k | 1 <= k < |b| :: IsContinuation(b[k])
  {
    var n := c as int;
    if n < 0x80 then [n]
    else if n < 0x800 then [0xC0 + n / 0x40, 0x80 + n % 0x40]
    else if n < 0x10000 then [0xE0 + n / 0x1000, 0x80 + (n / 0x40) % 0x40, 0x80 + n % 0x40]
    else [0xF0 + n / 0x40000, 0x80 + (n / 0x1000) % 0x40, 0x80 + (n / 0x40) % 0x40, 0x80 + n % 0x40]
  }

  function Width(c: char): nat {
    var n := c as int;
    if n < 0x80 then 1 else if n < 0x800 then 2 else if n < 0x10000 then 3 else 4
  }

  predicate IsContinuation(b: nat) { 0x80 <= b < 0xC0 }

  function Utf8(s: string): seq<nat> {
    if s == [] then [] else Encode(s[0]) + Utf8(s[1..])
  }

  function ByteLen(s: string): nat {
    if s == [] then 0 else Width(s[0]) + ByteLen(s[1..])
  }

  /** Rust's test: the ends, and every byte that is not a continuation byte. */
  predicate IsCharBoundary(bytes: seq<nat>, i: nat) {
    i == 0 || i == |bytes| || (i < |bytes| && !IsContinuation(bytes[i]))
  }

  lemma {:induction false} Utf8Length(s: string)
    ensures |Utf8(s)| == ByteLen(s)
  {
    if s != [] { Utf8Length(s[1..]); }
  }

  /** The longest prefix of whole characters that takes at most `limit` bytes. */
  function Prefix(s: string, limit: nat): string {
    if s == [] || Width(s[0]) > limit then [] else [s[0]] + Prefix(s[1..], limit - Width(s[0]))
  }

  lemma {:induction false} PrefixIsLongest(s: string, limit: nat)
    ensures Prefix(s, limit) <= s && ByteLen(Prefix(s, limit)) <= limit
    ensures forall k | |Prefix(s, limit)| < k <= |s| :: ByteLen(s[..k]) > limit
  {
    if s != [] && Width(s[0]) <= limit {
      PrefixIsLongest(s[1..], limit - Width(s[0]));
      var p := Prefix(s[1..], limit - Width(s[0]));
      assert ([s[0]] + p)[1..] == p;
      forall k | |Prefix(s, limit)| < k <= |s| ensures ByteLen(s[..k]) > limit {
        assert s[..k][1..] == s[1..][..k - 1];
      }
    } else if s != [] {
      forall k | 0 < k <= |s| ensures ByteLen(s[..k]) > limit {
        assert s[..k][0] == s[0];
      }
    }
  }

  /** Character boundaries of the bytes are exactly the byte lengths of prefixes: the
      last one up to `limit` is that of `Prefix`. */
  lemma {:induction false} LastBoundary(s: string, limit: nat)
    requires limit <= ByteLen(s)
    ensures IsCharBoundary(Utf8(s), ByteLen(Prefix(s, limit)))
    ensures forall i | ByteLen(Prefix(s, limit)) < i <= limit :: !IsCharBoundary(Utf8(s), i)
  {
    Utf8Length(s);
    if s != [] && Width(s[0]) <= limit {
      var w := Width(s[0]);
      var p := Prefix(s[1..], limit - w);
      LastBoundary(s[1..], limit - w);
      Utf8Length(s[1..]);
      assert ([s[0]] + p)[1..] == p;
      assert forall i | w <= i < |Utf8(s)| :: Utf8(s)[i] == Utf8(s[1..])[i - w];
      if s[1..] != [] { assert Utf8(s[1..])[0] == Encode(s[1])[0]; }
      forall i | ByteLen(Prefix(s, limit)) < i <= limit ensures !IsCharBoundary(Utf8(s), i) {
        assert !IsCharBoundary(Utf8(s[1..]), i - w);
      }
    } else if s != [] {
      assert forall i | 0 < i <= limit :: Utf8(s)[i] == Encode(s[0])[i];
    }
  }

  const MARKER_FRONT := "\n[... truncated "
  const MARKER_BACK := " bytes to fit the compaction window ...]"

  function Marker(dropped: nat): string {
    MARKER_FRONT + Decimal(dropped) + MARKER_BACK
  }

  /** The limit less the reserve for the marker. */
  function Room(maxBytes: nat): nat {
    if maxBytes > MARKER_RESERVE then maxBytes - MARKER_RESERVE else 0
  }

  /** What the source returns for a text over the limit. */
  function Truncated(s: string, maxBytes: nat): string {
    Prefix(s, Room(maxBytes)) + Marker(ByteLen(s) - KeptBytes(s, maxBytes))
  }

  /** Bytes in front of the marker: the last character boundary within the room. */
  function KeptBytes(s: string, maxBytes: nat): (n: nat)
    ensures n <= ByteLen(s)
  {
    PrefixIsLongest(s, Room(maxBytes));
    PrefixBytes(Prefix(s, Room(maxBytes)), s);
    ByteLen(Prefix(s, Room(maxBytes)))
  }

  /** The content a truncated item ends up with. */
  function Shorten(s: string, maxBytes: nat): string {
    if ByteLen(s) <= maxBytes then s else Truncated(s, maxBytes)
  }

  lemma {:induction false} ByteLenConcat(a: string, b: string)
    ensures ByteLen(a + b) == ByteLen(a) + ByteLen(b)
  {
    if a == [] {
      assert a + b == b;
    } else {
      assert (a + b)[1..] == a[1..] + b;
      ByteLenConcat(a[1..], b);
    }
  }

  lemma PrefixBytes(p: string, s: string)
    requires p <= s
    ensures ByteLen(p) <= ByteLen(s)
  {
    ByteLenConcat(p, s[|p|..]);
    assert p + s[|p|..] == s;
  }

  /** The source's loop: walk back from the limit to a character boundary. */
  method TruncateTextToBytes(s: string, maxBytes: nat) returns (r: Option<string>)
    ensures r == if ByteLen(s) <= maxBytes then None else Some(Truncated(s, maxBytes))
  {
    var bytes := Utf8(s);
    Utf8Length(s);
    if |bytes| <= maxBytes {
      return None;
    }
    var keep := if maxBytes > MARKER_RESERVE then maxBytes - MARKER_RESERVE else 0;
    var end := keep;
    ghost var kept := Prefix(s, keep);
    PrefixIsLongest(s, keep);
    LastBoundary(s, keep);
    while end > 0 && !IsCharBoundary(bytes, end)
      invariant ByteLen(kept) <= end <= keep
    {
      end := end - 1;
    }
    assert end == ByteLen(kept);
    PrefixOfItself(s, keep);
    var dropped := |bytes| - end;
    return Some(Prefix(s, end) + Marker(dropped));
  }

  lemma {:induction false} PrefixOfItself(s: string, limit: nat)
    ensures Prefix(s, ByteLen(Prefix(s, limit))) == Prefix(s, limit)
  {
    if s != [] && Width(s[0]) <= limit {
      PrefixOfItself(s[1..], limit - Width(s[0]));
      assert ([s[0]] + Prefix(s[1..], limit - Width(s[0])))[1..] == Prefix(s[1..], limit - Width(s[0]));
    }
  }

  /** `t` is the longest front of whole characters of `s` that leaves room for the marker,
      and the marker with the number of bytes left out. */
  ghost predicate CutTo(s: string, maxBytes: nat, t: string) {
    exists front, rest :: CutAt(s, maxBytes, front, rest, t)
  }

  predicate CutAt(s: string, maxBytes: nat, front: string, rest: string, t: string) {
    var room := if maxBytes > 64 then maxBytes - 64 else 0;
    && s == front + rest
    && ByteLen(front) <= room && (rest != [] ==> ByteLen(front) + Width(rest[0]) > room)
    && t == front + Marker(ByteLen(rest))
  }

  /** A text within the limit stays; any other is cut to that front and the marker. */
  lemma ShortenMeans(s: string, maxBytes: nat)
    ensures if ByteLen(s) <= maxBytes then Shorten(s, maxBytes) == s else CutTo(s, maxBytes, Shorten(s, maxBytes))
  {
    if ByteLen(s) > maxBytes {
      var rest := PrefixStops(s, Room(maxBytes));
      ByteLenConcat(Prefix(s, Room(maxBytes)), rest);
      assert CutAt(s, maxBytes, Prefix(s, Room(maxBytes)), rest, Shorten(s, maxBytes));
    }
  }

  lemma {:induction false} PrefixStops(s: string, limit: nat) returns (rest: string)
    ensures var p := Prefix(s, limit);
            s == p + rest && ByteLen(p) <= limit && (rest != [] ==> ByteLen(p) + Width(rest[0]) > limit)
  {
    if s == [] || Width(s[0]) > limit {
      rest := s;
    } else {
      var p := Prefix(s[1..], limit - Width(s[0]));
      rest := PrefixStops(s[1..], limit - Width(s[0]));
      assert ([s[0]] + p)[1..] == p;
      Associate([s[0]], p, rest);
    }
  }

  lemma MarkerReads(dropped: nat)
    ensures Marker(dropped) == "\n[... truncated " + Decimal(dropped) + " bytes to fit the compaction window ...]"
  {
  }

  // ---------- How long the result is ----------

  predicate Ascii(s: string) {
    forall k | 0 <= k < |s| :: s[k] < '\U{80}'
  }

  lemma {:induction false} AsciiByteLen(s: string)
    requires Ascii(s)
    ensures ByteLen(s) == |s|
  {
    if s != [] { AsciiByteLen(s[1..]); }
  }

  lemma {:induction false} DigitsAreAscii(s: string)
    requires AllDigits(s)
    ensures Ascii(s)
  {
    if s != [] {
      DigitsAreAscii(s[1..]);
      assert forall k | 0 < k < |s| :: s[k] == s[1..][k - 1];
    }
  }

  lemma MarkerLength(dropped: nat)
    ensures ByteLen(Marker(dropped)) == 56 + |Decimal(dropped)|
  {
    MarkerTextIsAscii();
    DigitsAreAscii(Decimal(dropped));
    AsciiConcat3(MARKER_FRONT, Decimal(dropped), MARKER_BACK);
    AsciiByteLen(Marker(dropped));
  }

  lemma MarkerTextIsAscii()
    ensures Ascii(MARKER_FRONT) && Ascii(MARKER_BACK)
    ensures |MARKER_FRONT| == 16 && |MARKER_BACK| == 40
  {
  }

  lemma AsciiConcat3(a: string, b: string, c: string)
    requires Ascii(a) && Ascii(b) && Ascii(c)
    ensures Ascii(a + b + c)
  {
  }

  /** The kept prefix stops at most three bytes short of the limit. */
  lemma {:induction false} SlackIsSmall(s: string, limit: nat)
    requires limit <= ByteLen(s)
    ensures ByteLen(Prefix(s, limit)) <= limit <= ByteLen(Prefix(s, limit)) + 3
  {
    if s != [] && Width(s[0]) <= limit {
      var p := Prefix(s[1..], limit - Width(s[0]));
      SlackIsSmall(s[1..], limit - Width(s[0]));
      assert ([s[0]] + p)[1..] == p;
    }
  }

  lemma TruncatedLength(s: string, maxBytes: nat)
    requires ByteLen(s) > maxBytes
    ensures var kept := KeptBytes(s, maxBytes);
            && kept <= Room(maxBytes) <= kept + 3
            && ByteLen(Truncated(s, maxBytes)) == kept + 56 + |Decimal(ByteLen(s) - kept)|
  {
    var p := Prefix(s, Room(maxBytes));
    SlackIsSmall(s, Room(maxBytes));
    ByteLenConcat(p, Marker(ByteLen(s) - ByteLen(p)));
    MarkerLength(ByteLen(s) - ByteLen(p));
  }

  /** The comment promises the marker within `max_bytes`.  For every string, up to the
      reserve that holds exactly if the marker alone fits; beyond it, exactly if the count
      of dropped bytes has at most eight digits, and one more for every byte by which the
      last character boundary falls short. */
  lemma DocumentedBoundIff(s: string, maxBytes: nat)
    requires ByteLen(s) > maxBytes
    ensures var kept := KeptBytes(s, maxBytes);
            ByteLen(Truncated(s, maxBytes)) <= maxBytes <==>
            if maxBytes <= MARKER_RESERVE then 56 + |Decimal(ByteLen(s))| <= maxBytes
            else |Decimal(ByteLen(s) - kept)| <= 8 + (Room(maxBytes) - kept)
  {
    TruncatedLength(s, maxBytes);
  }

  /** In lengths alone: beyond the reserve the bound holds if fewer than `10^8 - 67` bytes
      are over the limit, and fails if `10^11 - 64` or more are. */
  lemma DocumentedBoundByLength(s: string, maxBytes: nat)
    requires ByteLen(s) > maxBytes > MARKER_RESERVE
    ensures ByteLen(s) - maxBytes < 100_000_000 - 67 ==> ByteLen(Truncated(s, maxBytes)) <= maxBytes
    ensures ByteLen(s) - maxBytes >= 100_000_000_000 - 64 ==> ByteLen(Truncated(s, maxBytes)) > maxBytes
  {
    TruncatedLength(s, maxBytes);
    var dropped := ByteLen(s) - KeptBytes(s, maxBytes);
    DecimalLength(dropped, 8);
    DecimalLength(dropped, 11);
    PowersOfTen();
  }

  /** For text of single-byte characters the length decides exactly. */
  lemma AsciiBoundIff(s: string, maxBytes: nat)
    requires Ascii(s) && |s| > maxBytes > MARKER_RESERVE
    ensures ByteLen(Truncated(s, maxBytes)) <= maxBytes <==> |s| - maxBytes < 100_000_000 - 64
  {
    AsciiByteLen(s);
    AsciiPrefix(s, Room(maxBytes));
    TruncatedLength(s, maxBytes);
    DecimalLength(|s| - Room(maxBytes), 8);
    PowersOfTen();
  }

  lemma {:induction false} AsciiPrefix(s: string, limit: nat)
    requires Ascii(s) && limit <= |s|
    ensures ByteLen(Prefix(s, limit)) == limit
  {
    if limit > 0 {
      AsciiPrefix(s[1..], limit - 1);
      assert ([s[0]] + Prefix(s[1..], limit - 1))[1..] == Prefix(s[1..], limit - 1);
    }
  }

  lemma PowersOfTen()
    ensures Pow10(8) == 100_000_000 && Pow10(11) == 100_000_000_000
  {
    assert Pow10(4) == 10_000 by { assert Pow10(2) == 100; }
    assert Pow10(6) == 1_000_000;
    assert Pow10(9) == 1_000_000_000;
  }

  /** A text of one byte cut to zero bytes becomes 57 bytes long. */
  lemma TruncationCanGrow(s: string)
    requires ByteLen(s) == 1
    ensures ByteLen(Truncated(s, 0)) == 57
  {
    TruncatedLength(s, 0);
    DecimalLength(1, 1);
    assert Pow10(1) == 10 * Pow10(0) == 10;
  }
}
