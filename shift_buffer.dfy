/** The shift buffer of `shiftbuffer.c`: a byte region of `capacity` bytes
    whose payload starts at `curpos` and runs for `len` bytes, created with
    `l_pad` bytes of left padding reserved for headers.  The payload is
    modelled as the byte sequence `data` (so `len == |data|`).

    The helpers the file calls but does not define (`sbufReserveSpace`,
    `sbufSetLength`, `sbufWriteBuf`, `sbufShiftRight`) are given here the
    contracts their names and uses imply; their bodies are the simplest
    ones meeting those contracts. */
module ShiftBuffer {

  import opened Common

  /** `kCpuLineCacheSize`: the capacity rounding unit (a cache line). */
  const CPU_LINE_CACHE_SIZE: nat := 64

  /** `(pad_left + 15) & ~15` assigned back to the `uint16_t` `pad_left`:
      the padding rounded up to a multiple of 16, wrapping to 0 when the
      rounded value no longer fits in 16 bits. */
  function RoundedPadding(padLeft: uint16): (r: uint16)
    ensures r % 16 == 0
    ensures padLeft <= UINT16_LIMIT - 16 ==> padLeft <= r < padLeft + 16
    ensures padLeft > UINT16_LIMIT - 16 ==> r == 0
  {
    ToUint16((padLeft + 15) / 16 * 16)
  }

  /** The minimum capacity after the cache-line rounding of
      `sbufCreateWithPadding`, in 32-bit unsigned arithmetic: 0 and exact
      multiples of the line size are kept, anything else becomes
      `(max(line, m) + line - 1) & ~(line - 1)`. */
  function RoundedCapacity(minCap: uint32): (r: uint32)
    ensures minCap <= UINT32_LIMIT - CPU_LINE_CACHE_SIZE ==>
              r % CPU_LINE_CACHE_SIZE == 0 && minCap <= r < minCap + CPU_LINE_CACHE_SIZE
    ensures minCap != 0 && minCap <= UINT32_LIMIT - CPU_LINE_CACHE_SIZE ==> r >= CPU_LINE_CACHE_SIZE
    ensures minCap == 0 ==> r == 0
  {
    if minCap != 0 && minCap % CPU_LINE_CACHE_SIZE != 0 then
      (Max(CPU_LINE_CACHE_SIZE, minCap) + (CPU_LINE_CACHE_SIZE - 1)) % UINT32_LIMIT
        / CPU_LINE_CACHE_SIZE * CPU_LINE_CACHE_SIZE
    else
      minCap
  }

  /** Rounding the padding again changes nothing: a buffer's own `l_pad`
      passed back to `sbufCreateWithPadding` is kept as it is. */
  lemma RoundedPaddingIdempotent(padLeft: uint16)
    ensures RoundedPadding(RoundedPadding(padLeft)) == RoundedPadding(padLeft)
  {
    var r := RoundedPadding(padLeft);
    assert r <= UINT16_LIMIT - 16;
    assert (r + 15) / 16 * 16 == r;
  }

  /** Rounding the capacity again changes nothing (no 32-bit wrap). */
  lemma RoundedCapacityIdempotent(minCap: uint32)
    requires minCap <= UINT32_LIMIT - CPU_LINE_CACHE_SIZE
    ensures RoundedCapacity(RoundedCapacity(minCap)) == RoundedCapacity(minCap)
  {
  }

  class SBuf {
    /** The payload, `len` bytes from `curpos`. */
    var data: Bytes
    var curpos: nat
    var capacity: nat
    var lPad: nat
    var isTemporary: bool
    /** Whether `sbufDestroy` has released the buffer's memory. */
    var freed: bool

    ghost predicate Valid()
      reads this
    {
      && curpos + |data| <= capacity
      && lPad <= capacity
      && lPad % 16 == 0 && lPad < UINT16_LIMIT
    }

    /** `sbufCreateWithPadding`: an empty, non-temporary buffer whose left
        padding is the rounded padding and whose capacity is the rounded
        minimum capacity plus that padding. */
    constructor WithPadding(minCap: uint32, padLeft: uint16)
      requires RoundedCapacity(minCap) + RoundedPadding(padLeft) < UINT32_LIMIT
      ensures Valid()
      ensures lPad == RoundedPadding(padLeft) && curpos == lPad
      ensures capacity == RoundedCapacity(minCap) + lPad
      ensures data == [] && !isTemporary && !freed
    {
      var pad := RoundedPadding(padLeft);
      var cap := RoundedCapacity(minCap);
      var realCap := (cap + pad) % UINT32_LIMIT;
      isTemporary := false;
      data := [];
      curpos := pad;
      capacity := realCap;
      lPad := pad;
      freed := false;
    }

    /** `sbufGetTotalCapacityNoPadding`. */
    function CapacityNoPadding(): (n: nat)
      reads this
      requires Valid()
      ensures n + lPad == capacity
    {
      capacity - lPad
    }

    /** `sbufReserveSpace` (not shown in the source): afterwards at least `n`
        bytes fit from `curpos`; payload and padding are kept. */
    method ReserveSpace(n: nat)
      requires Valid()
      modifies this
      ensures Valid() && capacity - curpos >= n
      ensures data == old(data) && curpos == old(curpos) && lPad == old(lPad)
      ensures isTemporary == old(isTemporary) && freed == old(freed)
    {
      if capacity - curpos < n {
        capacity := curpos + n;
      }
    }

    /** `sbufShiftRight` (not shown in the source): drop the first `n` payload
        bytes by moving the read position forward. */
    method ShiftRight(n: nat)
      requires Valid() && n <= |data|
      modifies this
      ensures Valid()
      ensures data == old(data)[n..] && curpos == old(curpos) + n
      ensures capacity == old(capacity) && lPad == old(lPad)
      ensures isTemporary == old(isTemporary) && freed == old(freed)
    {
      data := data[n..];
      curpos := curpos + n;
    }
  }

  /** `sbufCreate`: a buffer without left padding. */
  method Create(minCap: uint32) returns (b: SBuf)
    requires RoundedCapacity(minCap) < UINT32_LIMIT
    ensures fresh(b) && b.Valid()
    ensures b.lPad == 0 && b.curpos == 0 && b.capacity == RoundedCapacity(minCap)
    ensures b.data == [] && !b.isTemporary && !b.freed
  {
    b := new SBuf.WithPadding(minCap, 0);
  }

  /** `sbufDestroy`: a temporary buffer is left alone, any other is released. */
  method Destroy(b: SBuf)
    modifies b
    ensures b.freed == (old(b.freed) || !b.isTemporary)
    ensures b.data == old(b.data) && b.isTemporary == old(b.isTemporary)
  {
    if b.isTemporary {
      return;
    }
    b.freed := true;
  }

  /** `sbufDuplicate`: a new buffer with the same left padding, at least the
      same capacity beyond the padding, and the same payload. */
  method Duplicate(b: SBuf) returns (copy: SBuf)
    requires b.Valid() && b.capacity <= UINT32_LIMIT - CPU_LINE_CACHE_SIZE
    requires |b.data| <= b.capacity - b.lPad
    ensures fresh(copy) && copy.Valid()
    ensures copy.data == b.data && copy.lPad == b.lPad
    ensures copy.capacity - copy.lPad >= b.capacity - b.lPad
    ensures !copy.isTemporary && !copy.freed
  {
    var room := b.capacity - b.lPad;
    DuplicateFits(room, b.lPad);
    copy := new SBuf.WithPadding(room, b.lPad);
    copy.data := b.data;
  }

  /** The sizes `sbufDuplicate` passes to `sbufCreateWithPadding` fit in 32
      bits and come back unchanged or larger. */
  lemma DuplicateFits(room: nat, lPad: nat)
    requires room + lPad <= UINT32_LIMIT - CPU_LINE_CACHE_SIZE
    requires lPad % 16 == 0 && lPad < UINT16_LIMIT
    ensures RoundedPadding(lPad) == lPad
    ensures room <= RoundedCapacity(room) < room + CPU_LINE_CACHE_SIZE
    ensures RoundedCapacity(room) + RoundedPadding(lPad) < UINT32_LIMIT
  {
    AlignedPaddingKept(lPad);
    assert room <= UINT32_LIMIT - CPU_LINE_CACHE_SIZE;
  }

  /** A padding already a multiple of 16 is kept by the rounding. */
  lemma AlignedPaddingKept(p: nat)
    requires p % 16 == 0 && p < UINT16_LIMIT
    ensures RoundedPadding(p) == p
  {
    assert (p + 15) / 16 * 16 == p;
  }

  /** `sbufConcat`: append the payload of `buf` to the payload of `root`,
      growing `root` first when needed. */
  method Concat(root: SBuf, buf: SBuf) returns (r: SBuf)
    requires root.Valid() && root != buf
    modifies root
    ensures r == root && r.Valid()
    ensures r.data == old(root.data) + buf.data
    ensures |r.data| == |old(root.data)| + |buf.data|
    ensures r.lPad == old(root.lPad) && r.curpos == old(root.curpos)
  {
    var rootLength := |root.data|;
    var appendLength := |buf.data|;
    root.ReserveSpace(rootLength + appendLength);
    root.data := root.data + buf.data;
    r := root;
  }

  /** `sbufMoveTo`: the first `bytes` payload bytes of `source` become the
      payload of the empty `dest`; `source` keeps the rest. */
  method MoveTo(dest: SBuf, source: SBuf, bytes: nat) returns (r: SBuf)
    requires dest.Valid() && source.Valid() && dest != source
    requires bytes <= |source.data|
    requires |dest.data| == 0
    modifies dest, source
    ensures r == dest && dest.Valid() && source.Valid()
    ensures dest.data == old(source.data)[..bytes]
    ensures source.data == old(source.data)[bytes..]
    ensures dest.data + source.data == old(source.data)
    ensures source.curpos == old(source.curpos) + bytes
    ensures dest.lPad == old(dest.lPad) && source.lPad == old(source.lPad)
    ensures dest.isTemporary == old(dest.isTemporary) && dest.freed == old(dest.freed)
  {
    ghost var moved := source.data;
    dest.ReserveSpace(bytes);
    dest.data := source.data[..bytes];
    source.ShiftRight(bytes);
    assert dest.data + source.data == moved;
    r := dest;
  }

  /** `sbufSlice`: a new buffer holding the first `bytes` bytes of `b`, with
      the left padding of `b`; `b` keeps the rest. */
  method Slice(b: SBuf, bytes: nat) returns (slice: SBuf)
    requires b.Valid() && b.capacity <= UINT32_LIMIT - CPU_LINE_CACHE_SIZE
    requires bytes <= |b.data|
    modifies b
    ensures fresh(slice) && slice.Valid() && b.Valid()
    ensures slice.lPad == b.lPad == old(b.lPad)
    ensures |slice.data| == bytes
    ensures slice.data + b.data == old(b.data)
    ensures !slice.isTemporary && !slice.freed
  {
    var room := b.capacity - b.lPad;
    DuplicateFits(room, b.lPad);
    slice := new SBuf.WithPadding(room, b.lPad);
    var _ := MoveTo(slice, b, bytes);
  }
}
