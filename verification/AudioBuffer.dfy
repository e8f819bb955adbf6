/** Ring buffer of samples with masked pointers. */
module AudioBuffer {
  import opened Arithmetic

  type Sample = real

  const SILENCE: Sample := 0.0

  // Masks

  /** Bitwise and. */
  function And(x: nat, y: nat): nat {
    if x == 0 || y == 0 then 0 else 2 * And(x / 2, y / 2) + (if x % 2 == 1 && y % 2 == 1 then 1 else 0)
  }

  lemma HalvingMod(x: nat, p: nat)
    requires p >= 1
    ensures x % (2 * p) == 2 * ((x / 2) % p) + x % 2
  {
    var q, r := (x / 2) / p, (x / 2) % p;
    assert q * (2 * p) == 2 * (q * p);
    QuotientUnique(x, 2 * p, q, 2 * r + x % 2);
  }

  lemma AndOdd(x: nat, m: nat)
    ensures And(x, 2 * m + 1) == 2 * And(x / 2, m) + x % 2
  {
  }

  lemma MaskStep(x: nat, m: nat, h: nat)
    requires And(x / 2, m) == h && h == (x / 2) % (m + 1)
    ensures And(x, 2 * m + 1) == x % (2 * m + 2)
  {
    AndOdd(x, m);
    HalvingMod(x, m + 1);
  }

  /** A mask of k ones takes the remainder. */
  lemma {:induction false} MaskIsRemainder(x: nat, k: nat)
    ensures And(x, Pow2(k) - 1) == x % Pow2(k)
  {
    if k > 0 {
      MaskIsRemainder(x / 2, k - 1);
      MaskStep(x, Pow2(k - 1) - 1, And(x / 2, Pow2(k - 1) - 1));
    }
  }

  /** The mask of an initialisation: one bit less than the highest bit of the size. */
  method MaskOf(size: nat) returns (mask: nat)
    ensures size == 0 ==> mask == 0
    ensures size > 0 ==> exists k: nat :: mask == Pow2(k) - 1 && Pow2(k) <= size < Pow2(k + 1)
  {
    var rest, ones := size, 0;
    while rest / 2 != 0
      invariant Pow2(ones) * rest <= size < Pow2(ones) * (rest + 1)
      invariant size > 0 ==> rest > 0
      invariant size == 0 ==> ones == 0
    {
      HalveBounds(Pow2(ones), rest, size);
      rest := rest / 2;
      ones := ones + 1;
    }
    mask := Pow2(ones) - 1;
    assert size > 0 ==> mask == Pow2(ones) - 1 && Pow2(ones) <= size < Pow2(ones + 1);
  }

  lemma HalveBounds(p: nat, rest: nat, size: nat)
    requires p * rest <= size < p * (rest + 1)
    ensures (2 * p) * (rest / 2) <= size < (2 * p) * (rest / 2 + 1)
  {
    var h := rest / 2;
    assert p * (2 * h) <= p * rest;
    assert p * (rest + 1) <= p * (2 * h + 2);
  }

  ghost predicate IsPow2(size: nat) {
    exists k: nat :: size == Pow2(k)
  }

  /** The mask covers the whole buffer exactly for power of two sizes. */
  lemma MaskCoversBuffer(size: nat, mask: nat, k: nat)
    requires mask == Pow2(k) - 1 && Pow2(k) <= size < Pow2(k + 1)
    ensures mask == size - 1 <==> IsPow2(size)
  {
    if j: nat :| size == Pow2(j) {
      if j < k {
        Pow2Monotone(j + 1, k);
      } else if j > k {
        Pow2Monotone(k + 1, j);
      }
    }
  }

  function Wrap(x: nat, size: nat): nat {
    if x < size then x else x - size
  }

  function Back(x: nat, n: nat, size: nat): int {
    if x >= n then x - n else x + size - n
  }

  /** Masking moves a pointer forward by at most one lap. */
  lemma MaskForward(x: nat, k: nat)
    requires x < 2 * Pow2(k)
    ensures And(x, Pow2(k) - 1) == Wrap(x, Pow2(k))
  {
    MaskIsRemainder(x, k);
    QuotientUnique(x, Pow2(k), if x < Pow2(k) then 0 else 1, Wrap(x, Pow2(k)));
  }

  /** Masking a 32-bit difference moves a pointer backwards. */
  lemma {:induction false} MaskBackward(x: nat, n: nat, k: nat)
    requires k <= 31 && x < Pow2(k) && n <= Pow2(k)
    ensures And(Sub32(x, n), Pow2(k) - 1) == Wrap(Back(x, n, Pow2(k)), Pow2(k))
  {
    var p, q := Pow2(k), Pow2(32 - k);
    Pow2Sum(32 - k, k);
    Pow2Is32();
    Pow2Monotone(k, 31);
    MaskIsRemainder(Sub32(x, n), k);
    QuotientUnique(x - n, TWO_32, if x >= n then 0 else -1, if x >= n then x - n else x - n + TWO_32);
    if x >= n {
      MaskForward(x - n, k);
      MaskIsRemainder(x - n, k);
    } else {
      Lap(p, q, x - n);
    }
  }

  lemma Lap(p: nat, q: nat, d: int)
    requires p > 0 && 0 - p <= d < 0
    ensures (q * p + d) % p == Wrap(d + p, p)
  {
    assert q * p + d == (q - 1) * p + (d + p);
    QuotientUnique(q * p + d, p, q - 1, d + p);
  }

  lemma Pow2Is32()
    ensures Pow2(31) == 0x8000_0000 && Pow2(32) == TWO_32
  {
    assert Pow2(8) == 256;
    Pow2Sum(8, 8);
    Pow2Sum(16, 8);
    Pow2Sum(24, 7);
    Pow2Sum(24, 8);
  }

  // Rings as values

  /** A ring with the number of samples it holds: the source derives that number
      from the pointers, which cannot tell a full ring from an empty one. */
  datatype Ring = Ring(base: seq<Sample>, read: nat, write: nat, fill: nat, silence: nat) {
    function Size(): nat {
      |base|
    }

    ghost predicate Valid() {
      && read < Size() && write < Size() && fill <= Size() && silence <= Size()
      && write == Wrap(read + fill, Size())
    }

    /** The samples held, oldest first. */
    ghost function Contents(): (c: seq<Sample>)
      requires Valid()
      ensures |c| == fill && forall i :: 0 <= i < fill ==> c[i] == base[Wrap(read + i, Size())]
    {
      seq(fill, i requires 0 <= i < fill => base[Wrap(read + i, Size())])
    }
  }

  /** The buffer memory after samples were stored one by one from a position on. */
  function Overlay(base: seq<Sample>, at: nat, samples: seq<Sample>): (r: seq<Sample>)
    requires at < |base| && |samples| <= |base|
    ensures |r| == |base|
    decreases |samples|
  {
    if samples == [] then base
    else
      var n := |samples| - 1;
      Overlay(base, at, samples[..n])[Wrap(at + n, |base|) := samples[n]]
  }

  /** Distance of a position ahead of another, around the ring. */
  function Ahead(j: nat, at: nat, size: nat): int {
    if j >= at then j - at else j + size - at
  }

  lemma {:induction false} OverlayAt(base: seq<Sample>, at: nat, samples: seq<Sample>)
    requires at < |base| && |samples| <= |base|
    ensures forall j :: 0 <= j < |base| ==>
              var d := Ahead(j, at, |base|);
              Overlay(base, at, samples)[j] == if d < |samples| then samples[d] else base[j]
    decreases |samples|
  {
    if samples != [] {
      OverlayAt(base, at, samples[..|samples| - 1]);
    }
  }

  function Put(r: Ring, samples: seq<Sample>): Ring
    requires r.write < r.Size() && |samples| <= r.Size()
  {
    r.(base := Overlay(r.base, r.write, samples), write := Wrap(r.write + |samples|, r.Size()),
      fill := r.fill + |samples|)
  }

  function PutHead(r: Ring, samples: seq<Sample>): Ring
    requires r.read < r.Size() && |samples| <= r.Size()
  {
    var read := Wrap(Back(r.read, |samples|, r.Size()), r.Size());
    r.(base := Overlay(r.base, read, samples), read := read, fill := r.fill + |samples|)
  }

  function Drop(r: Ring, n: nat): Ring
    requires n <= r.fill
  {
    r.(read := Wrap(r.read + n, r.Size()), fill := r.fill - n)
  }

  function Quiet(n: nat): (s: seq<Sample>)
    ensures |s| == n && forall i :: 0 <= i < n ==> s[i] == SILENCE
  {
    seq(n, i => SILENCE)
  }

  function Emptied(r: Ring): Ring
    requires 0 < r.Size() && r.silence <= r.Size()
  {
    Put(r.(read := 0, write := 0, fill := 0), Quiet(r.silence))
  }

  /** Writing appends at the back. */
  lemma {:induction false} PutAppends(r: Ring, samples: seq<Sample>)
    requires r.Valid() && r.fill + |samples| <= r.Size()
    ensures Put(r, samples).Valid() && Put(r, samples).Contents() == r.Contents() + samples
  {
    OverlayAt(r.base, r.write, samples);
  }

  /** Writing at the head prepends. */
  lemma {:induction false} PutHeadPrepends(r: Ring, samples: seq<Sample>)
    requires r.Valid() && r.fill + |samples| <= r.Size()
    ensures PutHead(r, samples).Valid() && PutHead(r, samples).Contents() == samples + r.Contents()
  {
    OverlayAt(r.base, PutHead(r, samples).read, samples);
  }

  /** Reading takes from the front. */
  lemma DropTakes(r: Ring, n: nat)
    requires r.Valid() && n <= r.fill
    ensures Drop(r, n).Valid() && Drop(r, n).Contents() == r.Contents()[n..]
  {
  }

  /** A reset ring holds its initial silence. */
  lemma EmptiedIsQuiet(r: Ring)
    requires r.Valid()
    ensures Emptied(r).Valid() && Emptied(r).Contents() == Quiet(r.silence)
  {
    var start := r.(read := 0, write := 0, fill := 0);
    PutAppends(start, Quiet(r.silence));
    assert start.Contents() == [];
  }

  /** One block that does not wrap, followed by one pointer update, stores what the
      wrapping loop stores. */
  lemma BlockIsLoop(r: Ring, samples: seq<Sample>)
    requires r.Valid() && r.write + |samples| <= r.Size()
    ensures Put(r, samples).base == r.base[..r.write] + samples + r.base[r.write + |samples|..]
  {
    OverlayAt(r.base, r.write, samples);
  }

  lemma BlockReadIsLoop(r: Ring, n: nat)
    requires r.Valid() && n <= r.fill && r.read + n <= r.Size()
    ensures r.Contents()[..n] == r.base[r.read..r.read + n]
  {
  }

  lemma {:induction false} BlockStored(r: Ring, src: Ring, n: nat, stored: seq<Sample>)
    requires r.Valid() && src.Valid()
    requires r.write + n <= r.Size() && n <= src.fill && src.read + n <= src.Size() && |stored| == r.Size()
    requires forall j :: 0 <= j < |stored| ==>
               stored[j] == if r.write <= j < r.write + n then src.base[src.read + j - r.write] else r.base[j]
    ensures stored == Put(r, src.Contents()[..n]).base
  {
    BlockReadIsLoop(src, n);
    OverlayAt(r.base, r.write, src.Contents()[..n]);
  }

  /** A block at a position that is a whole number of periods never wraps, and the
      position stays so. */
  lemma AlignedKept(x: nat, size: nat, period: nat)
    requires period > 0 && x < size && x % period == 0 && size % period == 0
    ensures x + period <= size && Wrap(x + period, size) % period == 0
  {
    var a, b := x / period, size / period;
    assert x == a * period && size == b * period;
    MulCancel(a, b, period);
    MulMonotone(a + 1, b, period);
    assert (a + 1) * period == x + period;
    if x + period < size {
      MultipleQuotient(a + 1, period);
    }
  }

  // Rings in memory

  /** Copies a block; the short lengths are unrolled. */
  method Memcpy(dst: array<Sample>, to: nat, src: array<Sample>, from: nat, len: nat)
    requires dst != src && to + len <= dst.Length && from + len <= src.Length
    modifies dst
    ensures forall j :: 0 <= j < dst.Length ==> dst[j] == if to <= j < to + len then src[from + j - to] else old(dst[j])
  {
    match len
    case 1 =>
      dst[to] := src[from];
    case 2 =>
      dst[to] := src[from];
      dst[to + 1] := src[from + 1];
    case 4 =>
      dst[to] := src[from];
      dst[to + 1] := src[from + 1];
      dst[to + 2] := src[from + 2];
      dst[to + 3] := src[from + 3];
    case 8 =>
      dst[to] := src[from];
      dst[to + 1] := src[from + 1];
      dst[to + 2] := src[from + 2];
      dst[to + 3] := src[from + 3];
      dst[to + 4] := src[from + 4];
      dst[to + 5] := src[from + 5];
      dst[to + 6] := src[from + 6];
      dst[to + 7] := src[from + 7];
    case _ =>
      for i := 0 to len
        invariant forall j :: 0 <= j < dst.Length ==>
                    dst[j] == if to <= j < to + i then src[from + j - to] else old(dst[j])
      {
        dst[to + i] := src[from + i];
      }
  }

  class Buffer {
    const base: array<Sample>
    const size: nat
    const sizeMask: nat
    const silence: nat
    var read: nat
    var write: nat
    ghost const log: nat
    ghost var fill: nat

    ghost predicate Sized() {
      log <= 31 && base.Length == size == Pow2(log) <= 0x8000_0000 && sizeMask == size - 1
    }

    ghost predicate Valid()
      reads this, base
    {
      Sized() && View().Valid()
    }

    ghost function View(): Ring
      reads this, base
    {
      Ring(base[..], read, write, fill, silence)
    }

    constructor (base: array<Sample>, size: nat, silence: nat)
      requires IsPow2(size) && base.Length == size <= 0x8000_0000 && silence <= size
      modifies base
      ensures Valid() && this.base == base && this.size == size && this.silence == silence
      ensures View() == Emptied(Ring(old(base[..]), 0, 0, 0, silence))
    {
      var mask := MaskOf(size);
      ghost var k: nat :| mask == Pow2(k) - 1 && Pow2(k) <= size < Pow2(k + 1);
      MaskCoversBuffer(size, mask, k);
      SizeLog(k, size);
      this.base, this.size, this.sizeMask, this.silence := base, size, mask, silence;
      read, write, fill := 0, 0, 0;
      log := k;
      new;
      WriteSilence(silence);
    }

    /** Samples held, as the pointers tell: exact below full, zero when full. */
    function Avail(): (n: nat)
      requires Valid()
      reads this, base
      ensures n == if fill < size then fill else 0
    {
      if write < read then write + size - read else write - read
    }

    function Free(): (n: nat)
      requires Valid()
      reads this, base
      ensures fill < size ==> fill + n + 1 == size
    {
      size - Avail() - 1
    }

    /** Compares the pointers the wrong way round: true with one sample held. */
    predicate Full()
      requires Valid()
      reads this, base
      ensures Full() <==> fill == 1 && write != 0
    {
      read == Sub32(write, 1)
    }

    predicate Empty()
      requires Valid()
      reads this, base
      ensures Empty() <==> fill == 0 || fill == size
    {
      read == write
    }

    method Masked(x: nat) returns (y: nat)
      requires Sized() && x < 2 * size
      ensures y == Wrap(x, size)
    {
      MaskForward(x, log);
      y := And(x, sizeMask);
    }

    method MaskedBack(x: nat, n: nat) returns (y: nat)
      requires Sized() && x < size && n <= size
      ensures y == Wrap(Back(x, n, size), size)
    {
      MaskBackward(x, n, log);
      y := And(Sub32(x, n), sizeMask);
    }

    method WriteUpdate(len: nat)
      requires Valid() && fill + len <= size
      modifies this`write, this`fill
      ensures Valid() && View() == old(View()).(write := Wrap(old(write) + len, size), fill := old(fill) + len)
    {
      write := Masked(write + len);
      fill := fill + len;
    }

    method Write(samples: seq<Sample>)
      requires Valid() && fill + |samples| <= size
      modifies this`write, this`fill, base
      ensures Valid() && View() == Put(old(View()), samples)
    {
      ghost var r := Put(View(), samples);
      PutAppends(View(), samples);
      for i := 0 to |samples|
        invariant base[..] == Overlay(old(base[..]), old(write), samples[..i])
        invariant write == Wrap(old(write) + i, size) && fill == old(fill)
      {
        assert samples[..i + 1][..i] == samples[..i];
        base[write] := samples[i];
        write := Masked(write + 1);
      }
      assert samples[..|samples|] == samples;
      fill := fill + |samples|;
      assert View() == r;
    }

    method WriteHead(samples: seq<Sample>)
      requires Valid() && fill + |samples| <= size
      modifies this`read, this`fill, base
      ensures Valid() && View() == PutHead(old(View()), samples)
    {
      ghost var r := PutHead(View(), samples);
      PutHeadPrepends(View(), samples);
      read := MaskedBack(read, |samples|);
      StoreFrom(read, samples);
      fill := fill + |samples|;
      assert View() == r;
    }

    /** The loop of a write at the head. */
    method StoreFrom(from: nat, samples: seq<Sample>)
      requires Sized() && from < size && |samples| <= size
      modifies base
      ensures base[..] == Overlay(old(base[..]), from, samples)
    {
      var at := from;
      for i := 0 to |samples|
        invariant base[..] == Overlay(old(base[..]), from, samples[..i])
        invariant at == Wrap(from + i, size)
      {
        assert samples[..i + 1][..i] == samples[..i];
        base[at] := samples[i];
        at := Masked(at + 1);
      }
      assert samples[..|samples|] == samples;
    }

    /** Does not wrap: the block must fit before the end of the buffer. */
    method WriteSilence(len: nat)
      requires Valid() && fill + len <= size && write + len <= size
      modifies this`write, this`fill, base
      ensures Valid() && View() == Put(old(View()), Quiet(len))
    {
      for i := 0 to len
        modifies base
        invariant base[..] == Overlay(old(base[..]), write, Quiet(i))
      {
        assert Quiet(i + 1)[..i] == Quiet(i);
        base[write + i] := SILENCE;
      }
      PutAppends(old(View()), Quiet(len));
      WriteUpdate(len);
    }

    method Read(len: nat) returns (samples: seq<Sample>)
      requires Valid() && len <= fill
      modifies this`read, this`fill
      ensures Valid() && View() == Drop(old(View()), len) && samples == old(View().Contents())[..len]
    {
      samples := [];
      for i := 0 to len
        invariant read == Wrap(old(read) + i, size) && fill == old(fill) && samples == old(View().Contents())[..i]
      {
        samples := samples + [base[read]];
        read := Masked(read + 1);
      }
      fill := fill - len;
    }

    /** Copies a block of another buffer behind the write pointer. */
    method CopyFrom(src: Buffer, len: nat)
      requires Valid() && src.Valid() && src.base != base
      requires fill + len <= size && write + len <= size && len <= src.fill && src.read + len <= src.size
      modifies base
      ensures View() == old(View()).(base := Put(old(View()), src.View().Contents()[..len]).base)
    {
      Memcpy(base, write, src.base, src.read, len);
      BlockStored(old(View()), src.View(), len, base[..]);
    }

    method Reset()
      requires Valid()
      modifies this`read, this`write, this`fill, base
      ensures Valid() && View() == Emptied(old(View()))
    {
      read, write, fill := 0, 0, 0;
      WriteSilence(silence);
    }
  }

  lemma SizeLog(k: nat, size: nat)
    requires size == Pow2(k) <= 0x8000_0000
    ensures k <= 31
  {
    if k > 31 {
      Pow2Monotone(32, k);
      Pow2Is32();
    }
  }
}
