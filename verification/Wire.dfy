/** Fixed-width integers and the big-endian layout that every PTP field uses on the wire. */
module Wire {

  newtype byte = x: int | 0 <= x < 0x100
  type u16 = x: int | 0 <= x < 0x1_0000
  type u32 = x: int | 0 <= x < 0x1_0000_0000
  type u64 = x: int | 0 <= x < 0x1_0000_0000_0000_0000
  type i8 = x: int | -0x80 <= x < 0x80
  type i16 = x: int | -0x8000 <= x < 0x8000
  type i32 = x: int | -0x8000_0000 <= x < 0x8000_0000
  type i64 = x: int | -0x8000_0000_0000_0000 <= x < 0x8000_0000_0000_0000

  datatype Option<+T> = None | Some(value: T)

  datatype Result<+T, +E> = Success(value: T) | Failure(error: E)

  /** int64 arithmetic wraps around. */
  function Wrap64(x: int): (r: i64)
    ensures (r - x) % 0x1_0000_0000_0000_0000 == 0
    ensures -0x8000_0000_0000_0000 <= x < 0x8000_0000_0000_0000 ==> r == x
  {
    (x + 0x8000_0000_0000_0000) % 0x1_0000_0000_0000_0000 - 0x8000_0000_0000_0000
  }

  lemma SomeElement<T>(s: set<T>) returns (x: T)
    requires s != {}
    ensures x in s
  {
    assert (forall y :: y !in s) ==> s == {};
    x :| x in s;
  }

  function Pow256(n: nat): (p: nat)
    ensures 0 < p
  {
    if n == 0 then 1 else 256 * Pow256(n - 1)
  }

  lemma Pow256Values()
    ensures Pow256(1) == 0x100
    ensures Pow256(0) == 1
    ensures Pow256(2) == 0x1_0000
    ensures Pow256(3) == 0x100_0000
    ensures Pow256(4) == 0x1_0000_0000
    ensures Pow256(5) == 0x100_0000_0000
    ensures Pow256(6) == 0x1_0000_0000_0000
    ensures Pow256(7) == 0x100_0000_0000_0000
    ensures Pow256(8) == 0x1_0000_0000_0000_0000
  {
    assert Pow256(3) == 256 * Pow256(2);
    assert Pow256(5) == 256 * Pow256(4);
    assert Pow256(7) == 256 * Pow256(6);
  }

  /** The n low-order bytes of v, most significant first; BEOctets says which octet stands where. */
  function BE(n: nat, v: nat): (b: seq<byte>)
    ensures |b| == n
  {
    if n == 0 then [] else BE(n - 1, v / 256) + [(v % 256) as byte]
  }

  /** The number whose big-endian bytes are b. */
  function Value(b: seq<byte>): (v: nat)
    ensures v < Pow256(|b|)
  {
    if b == [] then 0 else 256 * Value(b[..|b| - 1]) + b[|b| - 1] as nat
  }

  lemma {:induction false} ValueOfBE(n: nat, v: nat)
    requires v < Pow256(n)
    ensures Value(BE(n, v)) == v
  {
    if n > 0 {
      ValueOfBE(n - 1, v / 256);
      assert BE(n, v)[..n - 1] == BE(n - 1, v / 256);
    }
  }

  lemma DivideTwice(v: nat, p: nat)
    requires 0 < p
    ensures v / 256 / p == v / (256 * p)
  {
    var q := v / (256 * p);
    var r := v % (256 * p);
    assert v == 256 * (p * q) + r;
    var w := r / 256;
    assert v / 256 == p * q + w;
    assert w < p;
    QuotientIs(v / 256, p, q, w);
  }

  lemma Monotone(p: nat, a: int, b: int)
    ensures a <= b ==> p * a <= p * b
  {
  }

  lemma QuotientIs(x: int, p: nat, q: int, w: nat)
    requires w < p && x == p * q + w
    ensures x / p == q
  {
    var d, r := x / p, x % p;
    assert x == p * d + r;
    Monotone(p, d + 1, q);
    Monotone(p, q + 1, d);
  }

  /** Octet i of n is the digit of weight 256^(n - 1 - i): the first one is the most significant. */
  lemma {:induction false} BEOctets(n: nat, v: nat, i: nat)
    requires i < n
    ensures BE(n, v)[i] as int == v / Pow256(n - 1 - i) % 256
  {
    if i < n - 1 {
      BEOctets(n - 1, v / 256, i);
      DivideTwice(v, Pow256(n - 2 - i));
    }
  }

  // The octets by number: what BE and Value are for every width in use.

  lemma BE2(v: int)
    requires 0 <= v < 0x1_0000
    ensures BE(2, v) == [(v / 0x100 % 256) as byte, (v % 256) as byte]
  {
    Pow256Values();
    BEOctets(2, v, 0);
    BEOctets(2, v, 1);
  }

  lemma BE4(v: int)
    requires 0 <= v < 0x1_0000_0000
    ensures BE(4, v) ==
            [(v / 0x100_0000 % 256) as byte, (v / 0x1_0000 % 256) as byte, (v / 0x100 % 256) as byte, (v % 256) as byte]
  {
    Pow256Values();
    BEOctets(4, v, 0);
    BEOctets(4, v, 1);
    BEOctets(4, v, 2);
    BEOctets(4, v, 3);
  }

  lemma BE6(v: int)
    requires 0 <= v < 0x1_0000_0000_0000
    ensures BE(6, v) ==
            [(v / 0x100_0000_0000 % 256) as byte, (v / 0x1_0000_0000 % 256) as byte, (v / 0x100_0000 % 256) as byte,
             (v / 0x1_0000 % 256) as byte, (v / 0x100 % 256) as byte, (v % 256) as byte]
  {
    Pow256Values();
    BEOctets(6, v, 0);
    BEOctets(6, v, 1);
    BEOctets(6, v, 2);
    BEOctets(6, v, 3);
    BEOctets(6, v, 4);
    BEOctets(6, v, 5);
  }

  lemma BE8(v: int)
    requires 0 <= v < 0x1_0000_0000_0000_0000
    ensures BE(8, v) ==
            [(v / 0x100_0000_0000_0000 % 256) as byte, (v / 0x1_0000_0000_0000 % 256) as byte,
             (v / 0x100_0000_0000 % 256) as byte, (v / 0x1_0000_0000 % 256) as byte,
             (v / 0x100_0000 % 256) as byte, (v / 0x1_0000 % 256) as byte, (v / 0x100 % 256) as byte, (v % 256) as byte]
  {
    Pow256Values();
    BEOctets(8, v, 0);
    BEOctets(8, v, 1);
    BEOctets(8, v, 2);
    BEOctets(8, v, 3);
    BEOctets(8, v, 4);
    BEOctets(8, v, 5);
    BEOctets(8, v, 6);
    BEOctets(8, v, 7);
  }

  lemma {:induction false} BEOfValue(b: seq<byte>)
    ensures BE(|b|, Value(b)) == b
  {
    if b != [] {
      BEOfValue(b[..|b| - 1]);
      assert b == b[..|b| - 1] + [b[|b| - 1]];
    }
  }

  /** Value reads back exactly what BE wrote. */
  lemma Reads(b: seq<byte>, v: nat)
    requires v < Pow256(|b|)
    ensures Value(b) == v <==> b == BE(|b|, v)
  {
    ValueOfBE(|b|, v);
    BEOfValue(b);
  }

  // Fixed-width reads at an offset, as binary.BigEndian does them.

  function U16(b: seq<byte>, off: nat): (r: u16)
    requires off + 2 <= |b|
    ensures r == Value(b[off..off + 2])
  {
    Pow256Values();
    Value(b[off..off + 2])
  }

  lemma U16Reads(b: seq<byte>, off: nat, v: u16)
    requires off + 2 <= |b|
    ensures U16(b, off) == v <==> b[off..off + 2] == BE(2, v)
  {
    Pow256Values();
    Reads(b[off..off + 2], v);
  }

  function U32(b: seq<byte>, off: nat): (r: u32)
    requires off + 4 <= |b|
    ensures r == Value(b[off..off + 4])
  {
    Pow256Values();
    Value(b[off..off + 4])
  }

  lemma U32Reads(b: seq<byte>, off: nat, v: u32)
    requires off + 4 <= |b|
    ensures U32(b, off) == v <==> b[off..off + 4] == BE(4, v)
  {
    Pow256Values();
    Reads(b[off..off + 4], v);
  }

  function U64(b: seq<byte>, off: nat): (r: u64)
    requires off + 8 <= |b|
    ensures r == Value(b[off..off + 8])
  {
    Pow256Values();
    Value(b[off..off + 8])
  }

  lemma U64Reads(b: seq<byte>, off: nat, v: u64)
    requires off + 8 <= |b|
    ensures U64(b, off) == v <==> b[off..off + 8] == BE(8, v)
  {
    Pow256Values();
    Reads(b[off..off + 8], v);
  }

  // What the three reads are, octet by octet.

  lemma U16Octets(b: seq<byte>, off: nat)
    requires off + 2 <= |b|
    ensures U16(b, off) == 0x100 * b[off] as int + b[off + 1] as int
  {
    ValueSnoc(b, off, 1);
    ValueSnoc(b, off, 0);
  }

  lemma U32Octets(b: seq<byte>, off: nat)
    requires off + 4 <= |b|
    ensures U32(b, off) ==
            0x100_0000 * b[off] as int + 0x1_0000 * b[off + 1] as int + 0x100 * b[off + 2] as int + b[off + 3] as int
  {
    ValueSnoc(b, off, 3);
    ValueSnoc(b, off, 2);
    ValueSnoc(b, off, 1);
    ValueSnoc(b, off, 0);
  }

  lemma U64Octets(b: seq<byte>, off: nat)
    requires off + 8 <= |b|
    ensures U64(b, off) ==
            0x100_0000_0000_0000 * b[off] as int + 0x1_0000_0000_0000 * b[off + 1] as int +
            0x100_0000_0000 * b[off + 2] as int + 0x1_0000_0000 * b[off + 3] as int +
            0x100_0000 * b[off + 4] as int + 0x1_0000 * b[off + 5] as int + 0x100 * b[off + 6] as int + b[off + 7] as int
  {
    ValueSnoc(b, off, 7);
    ValueSnoc(b, off, 6);
    ValueSnoc(b, off, 5);
    ValueSnoc(b, off, 4);
    ValueSnoc(b, off, 3);
    ValueSnoc(b, off, 2);
    ValueSnoc(b, off, 1);
    ValueSnoc(b, off, 0);
  }

  lemma ValueSnoc(b: seq<byte>, off: nat, k: nat)
    requires off + k < |b|
    ensures Value(b[off..off + k + 1]) == 256 * Value(b[off..off + k]) + b[off + k] as nat
    ensures Value(b[off..off]) == 0
  {
    var d := b[off..off + k + 1];
    assert d[..k] == b[off..off + k];
  }

  // The two's complement conversions Go spells as casts between intN and uintN.

  function Unsigned8(v: i8): (u: byte)
    ensures Signed8(u) == v
    ensures (u as int - v) % 0x100 == 0
  {
    if v < 0 then (v + 0x100) as byte else v as byte
  }

  function Signed8(u: byte): (v: i8)
    ensures (v - u as int) % 0x100 == 0
  {
    if u < 0x80 then u as int else u as int - 0x100
  }

  function Unsigned16(v: i16): (u: u16)
    ensures Signed16(u) == v
    ensures (u - v) % 0x1_0000 == 0
  {
    if v < 0 then v + 0x1_0000 else v
  }

  function Signed16(u: u16): (v: i16)
    ensures (v - u) % 0x1_0000 == 0
  {
    if u < 0x8000 then u else u - 0x1_0000
  }

  function Unsigned32(v: i32): (u: u32)
    ensures Signed32(u) == v
    ensures (u - v) % 0x1_0000_0000 == 0
  {
    if v < 0 then v + 0x1_0000_0000 else v
  }

  function Signed32(u: u32): (v: i32)
    ensures (v - u) % 0x1_0000_0000 == 0
  {
    if u < 0x8000_0000 then u else u - 0x1_0000_0000
  }

  function Unsigned64(v: i64): (u: u64)
    ensures Signed64(u) == v
    ensures (u - v) % 0x1_0000_0000_0000_0000 == 0
  {
    if v < 0 then v + 0x1_0000_0000_0000_0000 else v
  }

  function Signed64(u: u64): (v: i64)
    ensures (v - u) % 0x1_0000_0000_0000_0000 == 0
  {
    if u < 0x8000_0000_0000_0000 then u else u - 0x1_0000_0000_0000_0000
  }

  /** The buffer s with x written over the bytes from off on. */
  function Splice(s: seq<byte>, off: nat, x: seq<byte>): (r: seq<byte>)
    requires off + |x| <= |s|
    ensures |r| == |s|
  {
    s[..off] + x + s[off + |x|..]
  }

  lemma SpliceTwice(s: seq<byte>, off: nat, x: seq<byte>, y: seq<byte>)
    requires off + |x| + |y| <= |s|
    ensures Splice(Splice(s, off, x), off + |x|, y) == Splice(s, off, x + y)
  {
    assert Splice(Splice(s, off, x), off + |x|, y) == s[..off] + x + y + s[off + |x| + |y|..];
  }

  lemma SplicePrefix(s: seq<byte>, off: nat, x: seq<byte>)
    requires off + |x| <= |s|
    ensures Splice(s, off, x)[..off] == s[..off]
    ensures Splice(s, off, x)[off..off + |x|] == x
  {
  }

  lemma SpliceSuffix(s: seq<byte>, off: nat, x: seq<byte>)
    requires off + |x| <= |s|
    ensures Splice(s, off, x)[off + |x|..] == s[off + |x|..]
  {
  }

  /** What Put leaves in a buffer: at off the octets of v by falling weight, and all others as they were. */
  lemma PutOctets(s: seq<byte>, off: nat, n: nat, v: nat, k: nat)
    requires off + n <= |s| && k < |s|
    ensures var r := Splice(s, off, BE(n, v));
            r[k] as int == if off <= k < off + n then v / Pow256(off + n - 1 - k) % 256 else s[k] as int
  {
    if off <= k < off + n {
      BEOctets(n, v, k - off);
    }
  }

  /** Writes v as n big-endian bytes at off; the rest of the buffer is untouched. */
  method Put(b: array<byte>, off: nat, n: nat, v: nat)
    requires off + n <= b.Length
    modifies b
    ensures b[..] == Splice(old(b[..]), off, BE(n, v))
  {
    var i, rest := n, v;
    while 0 < i
      invariant 0 <= i <= n
      invariant b[..off + i] == old(b[..off + i])
      invariant b[off + n..] == old(b[off + n..])
      invariant BE(n, v) == BE(i, rest) + b[off + i..off + n]
    {
      i := i - 1;
      b[off + i] := (rest % 256) as byte;
      rest := rest / 256;
    }
    assert b[..] == b[..off] + b[off..off + n] + b[off + n..];
  }

  /** What of x goes into `room` octets. */
  function Truncated(x: seq<byte>, room: int): (r: seq<byte>)
    ensures |x| <= room ==> r == x
    ensures 0 <= room < |x| ==> |r| == room && r <= x
  {
    if 0 <= room < |x| then x[..room] else x
  }

  /** Go's copy(b[off:], x), which stops at the end of the buffer. */
  method Copy(b: array<byte>, off: nat, x: seq<byte>)
    requires off <= b.Length
    modifies b
    ensures b[..] == Splice(old(b[..]), off, Truncated(x, b.Length - off))
  {
    var n := if |x| <= b.Length - off then |x| else b.Length - off;
    for i := 0 to n
      invariant b[..off] == old(b[..off])
      invariant b[off..off + i] == x[..i]
      invariant b[off + i..] == old(b[off + i..])
    {
      b[off + i] := x[i];
    }
    assert x[..n] == Truncated(x, b.Length - off);
    assert b[..] == b[..off] + b[off..off + n] + b[off + n..];
  }

  /** Put, for a writer that has already spliced `done` in just before pos. */
  method Emit(b: array<byte>, pos: nat, n: nat, v: nat, ghost before: seq<byte>, ghost done: seq<byte>)
      returns (ghost done': seq<byte>)
    requires |done| <= pos && pos + n <= b.Length == |before|
    requires b[..] == Splice(before, pos - |done|, done)
    modifies b
    ensures done' == done + BE(n, v)
    ensures b[..] == Splice(before, pos - |done|, done')
  {
    Put(b, pos, n, v);
    done' := done + BE(n, v);
    SpliceTwice(before, pos - |done|, done, BE(n, v));
  }

  /** Copy, for a writer that has already spliced `done` in just before pos. */
  method EmitBytes(b: array<byte>, pos: nat, x: seq<byte>, ghost before: seq<byte>, ghost done: seq<byte>)
      returns (ghost done': seq<byte>)
    requires |done| <= pos && pos + |x| <= b.Length == |before|
    requires b[..] == Splice(before, pos - |done|, done)
    modifies b
    ensures done' == done + x
    ensures b[..] == Splice(before, pos - |done|, done')
  {
    Copy(b, pos, x);
    done' := done + x;
    SpliceTwice(before, pos - |done|, done, x);
  }

  /** Copy at pos, for such a writer, where the buffer may end too soon. */
  method EmitUpTo(b: array<byte>, pos: nat, x: seq<byte>, ghost before: seq<byte>, ghost done: seq<byte>)
      returns (ghost done': seq<byte>)
    requires |done| <= pos <= b.Length == |before|
    requires b[..] == Splice(before, pos - |done|, done)
    modifies b
    ensures done' == done + x
    ensures b[..] == Splice(before, pos - |done|, Truncated(done', b.Length - (pos - |done|)))
  {
    Copy(b, pos, x);
    done' := done + x;
    SpliceTwice(before, pos - |done|, done, Truncated(x, b.Length - pos));
    assert done + Truncated(x, b.Length - pos) == Truncated(done', b.Length - (pos - |done|));
  }
}
