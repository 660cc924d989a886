/** Bounded byte streams: what is copied, counted and kept, however the bytes arrive. Sizes are 64-bit. */
module Streams {
  import opened Wrappers

  type Bytes = string

  const INT64_MAX: int := 0x7fff_ffff_ffff_ffff
  const INT64_MIN: int := -0x8000_0000_0000_0000
  const TWO_TO_THE_64: int := 0x1_0000_0000_0000_0000

  predicate IsInt64(n: int) {
    INT64_MIN <= n <= INT64_MAX
  }

  /** Two's-complement wrap-around, as Go's int64 arithmetic does it. */
  function Wrap(n: int): (r: int)
    ensures IsInt64(r) && (r - n) % TWO_TO_THE_64 == 0
    ensures IsInt64(n) ==> r == n
  {
    (n - INT64_MIN) % TWO_TO_THE_64 + INT64_MIN
  }

  /** What a reader will deliver: some bytes, and then a clean end or a read error. */
  datatype Stream = Stream(data: Bytes, clean: bool)

  datatype End = More | Eof | Failure

  /** At least one byte if there is room, and at most as many. */
  function Clamp(wanted: nat, room: nat): (n: nat)
    ensures n <= room && (room > 0 ==> n > 0)
  {
    if wanted > room then room else if wanted == 0 && room > 0 then 1 else wanted
  }

  lemma TakeMore(s: Bytes, rest: Bytes, n: nat)
    requires n <= |rest| <= |s| && rest == s[|s| - |rest|..]
    ensures rest == rest[..n] + rest[n..] && rest[n..] == s[|s| - |rest| + n..]
    ensures s[..|s| - |rest|] + rest[..n] == s[..|s| - |rest| + n]
  {
  }

  /** A reader delivering a stream in chunks. How much one read returns is up to `chunk`, given what remains; the last
      bytes may come together with the end or before it. */
  class Reader {
    ghost const source: Stream
    const chunk: nat -> nat
    const eager: bool
    const clean: bool
    var rest: Bytes

    ghost predicate Valid()
      reads this
    {
      |rest| <= |source.data| && rest == source.data[|source.data| - |rest|..] && clean == source.clean
    }

    ghost function Taken(): Bytes
      reads this
      requires Valid()
    {
      source.data[..|source.data| - |rest|]
    }

    constructor (s: Stream, chunk: nat -> nat, eager: bool)
      ensures Valid() && source == s && rest == s.data
    {
      this.source, this.chunk, this.eager, this.clean, this.rest := s, chunk, eager, s.clean, s.data;
    }

    /** Reads at most `max` bytes; without room nothing is read. */
    method Read(max: nat) returns (bytes: Bytes, end: End)
      requires Valid()
      modifies this`rest
      ensures Valid() && |bytes| <= max && old(rest) == bytes + rest
      ensures old(Taken()) + bytes == Taken()
      ensures end != More ==> rest == [] && end == (if source.clean then Eof else Failure)
      ensures end == More && max > 0 ==> |bytes| > 0
    {
      if rest == [] {
        return [], if clean then Eof else Failure;
      }
      var n := Clamp(chunk(|rest|), if |rest| < max then |rest| else max);
      TakeMore(source.data, rest, n);
      bytes, rest := rest[..n], rest[n..];
      end := if rest == [] && eager then (if clean then Eof else Failure) else More;
    }
  }

  /** The first bytes of a string, at most `max`; none when `max` is negative. */
  function First(max: int, s: Bytes): Bytes {
    if max <= 0 then [] else if |s| <= max then s else s[..max]
  }

  const BUFFER := 32 * 1024

  /** What arrives at a destination with room for so many bytes only: a write that does not fit is cut short and
      fails. */
  function Fit(room: Option<nat>, copy: (Bytes, bool)): (Bytes, bool) {
    if room.Some? && |copy.0| > room.value then (copy.0[..room.value], false) else copy
  }

  /** What a reader limited to `cap` bytes delivers (a negative cap delivers nothing), and whether it ends cleanly. */
  function Limited(s: Stream, bounded: bool, cap: int): (Bytes, bool) {
    if !bounded || |s.data| < cap then (s.data, s.clean) else (First(cap, s.data), true)
  }

  /** Copies until the stream ends or, when `bounded`, until `cap` bytes were read. At the very cap a failing stream may
      or may not be noticed. */
  method Copy(src: Reader, bounded: bool, cap: int, room: Option<nat>) returns (dst: Bytes, ok: bool)
    requires src.Valid() && src.rest == src.source.data
    modifies src`rest
    ensures var want := Limited(src.source, bounded, cap);
      && dst == Fit(room, want).0
      && (ok ==> Fit(room, want).1)
      && (Fit(room, want).1 && (!bounded || |src.source.data| != cap || src.source.clean || cap <= 0) ==> ok)
  {
    dst, ok := [], true;
    var left := cap;
    while !bounded || left > 0
      invariant src.Valid() && dst == src.Taken()
      invariant bounded ==> left == cap - |dst| && (cap > 0 ==> left >= 0) && (cap <= 0 ==> dst == [])
      invariant room.Some? ==> |dst| <= room.value
      invariant ok
      decreases |src.rest|
    {
      var max := if bounded && left < BUFFER then left else BUFFER;
      var bytes, end := src.Read(max);
      if room.Some? && |dst| + |bytes| > room.value {
        ghost var want := Limited(src.source, bounded, cap);
        var fits := room.value - |dst|;
        assert dst + bytes <= want.0;
        dst := dst + bytes[..fits];
        return dst, false;
      }
      dst := dst + bytes;
      left := left - |bytes|;
      if end != More {
        ok := end == Eof;
        break;
      }
    }
    assert dst == src.source.data[..|dst|];
  }

  /** What a copy with a limit makes of a stream: the bytes written, and whether it succeeds. */
  function Copied(s: Stream, limit: int): (Bytes, bool) {
    if limit <= 0 then (s.data, s.clean)
    else if limit == INT64_MAX then ([], true)
    else if |s.data| <= limit then (s.data, s.clean)
    else (s.data[..limit + 1], false)
  }

  /** A copy that refuses to write more than `limit` bytes; 0 or less means unlimited. One byte beyond the limit is
      read to tell a full stream from an overlong one, and that addition can wrap around. */
  method CopyLimited(src: Reader, limit: int, room: Option<nat>) returns (dst: Bytes, ok: bool)
    requires IsInt64(limit) && src.Valid() && src.rest == src.source.data && |src.source.data| <= INT64_MAX
    modifies src`rest
    ensures (dst, ok) == Fit(room, Copied(src.source, limit))
  {
    if limit <= 0 {
      dst, ok := Copy(src, false, 0, room);
      return;
    }
    ghost var all := src.source.data;
    assert all[..|all|] == all;
    dst, ok := Copy(src, true, Wrap(limit + 1), room);
    if !ok {
      return;
    }
    if |dst| > limit {
      ok := false;
    }
  }

  /** The promise: a stream is accepted exactly when it ends cleanly within the limit, and then it is all there. */
  predicate Promised(s: Stream, limit: int) {
    && (Copied(s, limit).1 <==> s.clean && |s.data| <= limit)
    && (Copied(s, limit).1 ==> Copied(s, limit).0 == s.data)
    && |Copied(s, limit).0| <= limit + 1
  }

  /** The promise is kept for every limit but one: at the largest 64-bit limit nothing is copied, and the copy
      counts as done. */
  lemma WhenTheLimitIsKept(s: Stream, limit: int)
    requires IsInt64(limit) && limit > 0 && |s.data| <= INT64_MAX
    ensures Promised(s, limit) <==> limit < INT64_MAX || s == Stream([], true)
  {
    if s.data != [] {
      assert Copied(s, INT64_MAX).0 != s.data;
    }
  }

  /** The guard on expansion: an explicit bound, else a hundred times the transfer cap, else none. */
  function UncompressedLimit(maxBytes: int, maxUncompressed: int): int {
    if maxUncompressed > 0 then maxUncompressed else if maxBytes > 0 then Wrap(maxBytes * 100) else 0
  }

  /** The hundredfold cap is what it says exactly while the product fits; just beyond, there is no bound at all. */
  lemma HundredfoldFits(maxBytes: int, maxUncompressed: int)
    requires IsInt64(maxBytes) && maxBytes > 0 && maxUncompressed <= 0
    ensures UncompressedLimit(maxBytes, maxUncompressed) == 100 * maxBytes <==> maxBytes <= 92233720368547758
    ensures UncompressedLimit(92233720368547759, maxUncompressed) < 0
  {
  }

  // ---- Counting what passes

  class CapReader {
    var n: int
    const limit: int

    constructor (limit: int)
      ensures n == 0 && this.limit == limit
    {
      n, this.limit := 0, limit;
    }

    /** One read: what the inner reader returned goes through, but past the limit with a failure. */
    method Read(bytes: Bytes, end: End) returns (end': End)
      modifies this`n
      ensures n == old(n) + |bytes|
      ensures end' == if limit > 0 && n > limit then Failure else end
    {
      n := n + |bytes|;
      if limit > 0 && n > limit {
        return Failure;
      }
      return end;
    }
  }

  /** What comes through a counting reader: past the limit it breaks off, at the end of the read that crossed it. */
  function Capped(s: Stream, limit: int, crossing: nat): (r: Stream)
    ensures limit <= 0 || |s.data| <= limit ==> r == s
    ensures limit > 0 && |s.data| > limit ==> !r.clean && r.data <= s.data && |r.data| > limit
  {
    if limit <= 0 || |s.data| <= limit then s
    else
      var n := if crossing <= limit then limit + 1 else if crossing > |s.data| then |s.data| else crossing;
      Stream(s.data[..n], false)
  }

  /** Reads to the end through the counter. It fails exactly when the stream does or its total exceeds the limit;
      if not, everything came through and the count is the total. */
  method Drain(src: Reader, cap: CapReader) returns (got: Bytes, ok: bool)
    requires src.Valid() && src.rest == src.source.data && cap.n == 0
    modifies src`rest, cap`n
    ensures ok <==> src.source.clean && !(cap.limit > 0 && |src.source.data| > cap.limit)
    ensures got <= src.source.data && cap.n == |got|
    ensures ok ==> got == src.source.data
    ensures cap.limit > 0 && |src.source.data| > cap.limit ==> |got| > cap.limit
    ensures exists crossing: nat :: Stream(got, ok) == Capped(src.source, cap.limit, crossing)
  {
    got, ok := [], true;
    while true
      invariant src.Valid() && got == src.Taken() && cap.n == |got| && ok
      invariant cap.limit > 0 ==> cap.n <= cap.limit
      decreases |src.rest|
    {
      var bytes, end := src.Read(BUFFER);
      end := cap.Read(bytes, end);
      got := got + bytes;
      if end != More {
        ok := end == Eof;
        break;
      }
    }
    assert got == src.source.data[..|got|];
    assert Stream(got, ok) == Capped(src.source, cap.limit, |got|);
  }

  // ---- Keeping the beginning

  /** Keeps the first `max` bytes written and lets the rest pass. */
  class LimitedBuffer {
    var buf: Bytes
    const max: int

    constructor (max: int)
      ensures buf == [] && this.max == max
    {
      buf, this.max := [], max;
    }

    method Write(p: Bytes) returns (n: nat)
      requires buf == First(max, buf)
      modifies this`buf
      ensures buf == First(max, old(buf) + p) && n == |p|
    {
      var remaining := max - |buf|;
      if remaining > 0 {
        buf := buf + (if |p| > remaining then p[..remaining] else p);
      }
      n := |p|;
      assert buf == First(max, old(buf) + p);
    }
  }

  function Concat(chunks: seq<Bytes>): Bytes {
    if chunks == [] then [] else Concat(chunks[..|chunks| - 1]) + chunks[|chunks| - 1]
  }

  lemma FirstOfMore(max: int, a: Bytes, b: Bytes)
    ensures First(max, First(max, a) + b) == First(max, a + b)
    ensures First(max, First(max, a)) == First(max, a)
  {
  }

  /** Any series of writes leaves the first `max` bytes of all that was written, and reports every byte as taken. */
  method WriteAll(b: LimitedBuffer, chunks: seq<Bytes>) returns (n: nat)
    requires b.buf == []
    modifies b`buf
    ensures b.buf == First(b.max, Concat(chunks)) && n == |Concat(chunks)|
  {
    n := 0;
    for i := 0 to |chunks|
      invariant b.buf == First(b.max, Concat(chunks[..i])) && n == |Concat(chunks[..i])|
    {
      assert chunks[..i + 1][..i] == chunks[..i];
      FirstOfMore(b.max, Concat(chunks[..i]), chunks[i]);
      var m := b.Write(chunks[i]);
      n := n + m;
    }
    assert chunks[..|chunks|] == chunks;
  }
}
