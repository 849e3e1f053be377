/**
 * The AXI output test: 32-bit words written through pointers into the
 * external address space and read back. Memory is byte-addressed and
 * little-endian; a word access at any byte address touches four consecutive
 * bytes, and addresses wrap around modulo 2^32 as `uintptr_t` does on rv32.
 * The memory answers every read with the bytes last written (an ideal memory
 * behind the AXI plug). A failed `assert` calls `exit(1)`; the methods report
 * it as `ok == false` and stop where the test would stop.
 */
module Axi {
  import Bits

  const ADDR_SPACE: nat := 0x1_0000_0000

  /** `samples` and `blocksize` are C `int`s: below 2^31. */
  const INT_LIMIT: nat := 0x8000_0000

  predicate IsAddr(a: int) {
    0 <= a < ADDR_SPACE
  }

  predicate IsMemory(m: seq<bv8>) {
    |m| == ADDR_SPACE
  }

  /** `uintptr_t` arithmetic: the address modulo 2^32. */
  function Wrap(a: int): (r: nat)
    ensures IsAddr(r) && (IsAddr(a) ==> r == a)
  {
    a % ADDR_SPACE
  }

  /** Near the address space, wrapping is one addition or subtraction of 2^32. */
  lemma WrapNear(x: int)
    requires -(ADDR_SPACE as int) <= x < 2 * ADDR_SPACE
    ensures Wrap(x) == if x < 0 then x + ADDR_SPACE else if x < ADDR_SPACE then x else x - ADDR_SPACE
  {
  }

  /** The addresses of the four bytes of the word at `a`, unwrapped. */
  lemma WordBytes(a: nat)
    requires IsAddr(a)
    ensures Wrap(a + 1) == (if a + 1 < ADDR_SPACE then a + 1 else a + 1 - ADDR_SPACE)
    ensures Wrap(a + 2) == (if a + 2 < ADDR_SPACE then a + 2 else a + 2 - ADDR_SPACE)
    ensures Wrap(a + 3) == (if a + 3 < ADDR_SPACE then a + 3 else a + 3 - ADDR_SPACE)
  {
    WrapNear(a + 1);
    WrapNear(a + 2);
    WrapNear(a + 3);
  }

  // ---------------------------------------------------------------------------
  // Words and bytes
  // ---------------------------------------------------------------------------

  /** Byte `k` of a word, little-endian. */
  function ByteOf(v: bv32, k: nat): bv8
    requires k < 4
  {
    if k == 0 then (v & 0xff) as bv8
    else if k == 1 then ((v >> 8) & 0xff) as bv8
    else if k == 2 then ((v >> 16) & 0xff) as bv8
    else (v >> 24) as bv8
  }

  /** The word made of four bytes, the first one least significant. */
  function Word(b0: bv8, b1: bv8, b2: bv8, b3: bv8): bv32 {
    (b0 as bv32) | ((b1 as bv32) << 8) | ((b2 as bv32) << 16) | ((b3 as bv32) << 24)
  }

  lemma WordOfBytes(v: bv32)
    ensures Word(ByteOf(v, 0), ByteOf(v, 1), ByteOf(v, 2), ByteOf(v, 3)) == v
  {
  }

  lemma BytesOfWord(b0: bv8, b1: bv8, b2: bv8, b3: bv8)
    ensures var w := Word(b0, b1, b2, b3);
      ByteOf(w, 0) == b0 && ByteOf(w, 1) == b1 && ByteOf(w, 2) == b2 && ByteOf(w, 3) == b3
  {
  }

  /** `*(volatile uint32_t *)a = v` on the memory contents `m`. */
  function Stored(m: seq<bv8>, a: nat, v: bv32): (r: seq<bv8>)
    requires IsMemory(m) && IsAddr(a)
    ensures IsMemory(r)
  {
    m[a := ByteOf(v, 0)][Wrap(a + 1) := ByteOf(v, 1)][Wrap(a + 2) := ByteOf(v, 2)][Wrap(a + 3) := ByteOf(v, 3)]
  }

  /** `*(volatile uint32_t *)a` on the memory contents `m`. */
  function Loaded(m: seq<bv8>, a: nat): bv32
    requires IsMemory(m) && IsAddr(a)
  {
    Word(m[a], m[Wrap(a + 1)], m[Wrap(a + 2)], m[Wrap(a + 3)])
  }

  /** The words at `a` and `b` share no byte: `b` lies at least four bytes past `a` and four bytes before it, around the wrap. */
  predicate Apart(a: nat, b: nat)
    requires IsAddr(a) && IsAddr(b)
  {
    4 <= Wrap(b - a) <= ADDR_SPACE - 4
  }

  /** A word reads back what was last stored at its address. */
  lemma LoadStore(m: seq<bv8>, a: nat, v: bv32)
    requires IsMemory(m) && IsAddr(a)
    ensures Loaded(Stored(m, a, v), a) == v
  {
    WordOfBytes(v);
  }

  /** A store leaves every word apart from it unchanged. */
  lemma LoadStoreOther(m: seq<bv8>, a: nat, b: nat, v: bv32)
    requires IsMemory(m) && IsAddr(a) && IsAddr(b) && Apart(a, b)
    ensures Loaded(Stored(m, a, v), b) == Loaded(m, b)
  {
    WordBytes(a);
    WordBytes(b);
    WrapNear(b - a);
  }

  /** Byte `k` of a stored word sits `k` bytes after its address. */
  lemma StoredByte(m: seq<bv8>, a: nat, v: bv32, k: nat)
    requires IsMemory(m) && IsAddr(a) && k < 4
    ensures Stored(m, a, v)[Wrap(a + k)] == ByteOf(v, k)
  {
    WordBytes(a);
    if k == 0 {
      assert Wrap(a + k) == a;
    }
  }

  /** Byte `k` of a loaded word is the memory byte `k` bytes after its address. */
  lemma LoadedByte(m: seq<bv8>, a: nat, k: nat)
    requires IsMemory(m) && IsAddr(a) && k < 4
    ensures ByteOf(Loaded(m, a), k) == m[Wrap(a + k)]
  {
    BytesOfWord(m[a], m[Wrap(a + 1)], m[Wrap(a + 2)], m[Wrap(a + 3)]);
  }

  /**
   * Two stores of one value at distinct overlapping addresses leave the first
   * address holding another word, when the value's bytes are pairwise
   * distinct: one byte of the second store lands where the first put another.
   */
  lemma OverlapClobbers(m: seq<bv8>, a: nat, b: nat, v: bv32)
    requires IsMemory(m) && IsAddr(a) && IsAddr(b) && a != b && !Apart(a, b)
    requires forall j, k | 0 <= j < k < 4 :: ByteOf(v, j) != ByteOf(v, k)
    ensures Loaded(Stored(Stored(m, a, v), b, v), a) != v
  {
    var m1 := Stored(m, a, v);
    var d := Wrap(b - a);
    WrapNear(b - a);
    if d < 4 {
      // byte 0 of the second store lands on byte d of the first word
      WrapNear(a + d);
      assert Wrap(b + 0) == Wrap(a + d);
      StoredByte(m1, b, v, 0);
      LoadedByte(Stored(m1, b, v), a, d);
      assert ByteOf(v, 0) != ByteOf(v, d);
    } else {
      // byte e of the second store lands on byte 0 of the first word
      var e := ADDR_SPACE - d;
      WrapNear(b + e);
      assert Wrap(b + e) == Wrap(a + 0);
      StoredByte(m1, b, v, e);
      LoadedByte(Stored(m1, b, v), a, 0);
      assert ByteOf(v, 0) != ByteOf(v, e);
    }
  }

  /** A word store on the array `mem`, byte by byte. */
  method WriteWord(mem: array<bv8>, a: nat, v: bv32)
    requires mem.Length == ADDR_SPACE && IsAddr(a)
    modifies mem
    ensures mem[..] == Stored(old(mem[..]), a, v)
  {
    mem[a] := ByteOf(v, 0);
    mem[Wrap(a + 1)] := ByteOf(v, 1);
    mem[Wrap(a + 2)] := ByteOf(v, 2);
    mem[Wrap(a + 3)] := ByteOf(v, 3);
  }

  /** A word load from the array `mem`. */
  method ReadWord(mem: array<bv8>, a: nat) returns (v: bv32)
    requires mem.Length == ADDR_SPACE && IsAddr(a)
    ensures v == Loaded(mem[..], a)
  {
    v := Word(mem[a], mem[Wrap(a + 1)], mem[Wrap(a + 2)], mem[Wrap(a + 3)]);
  }

  // ---------------------------------------------------------------------------
  // probe_first_last
  // ---------------------------------------------------------------------------

  const PATTERN: bv32 := 0xcafe_dead

  lemma PatternBytesDistinct()
    ensures forall j, k | 0 <= j < k < 4 :: ByteOf(PATTERN, j) != ByteOf(PATTERN, k)
  {
    assert ByteOf(PATTERN, 0) == 0xad && ByteOf(PATTERN, 1) == 0xde;
    assert ByteOf(PATTERN, 2) == 0xfe && ByteOf(PATTERN, 3) == 0xca;
  }

  /** The last word below `to`, `to - 1` in `uint32_t` units, starts four bytes below it. */
  function LastWord(to: nat): nat {
    Wrap(to - 4)
  }

  /**
   * Where the last word lies relative to the first: the same word when the
   * range is one word long, apart from it from eight bytes on, overlapping
   * it otherwise.
   */
  lemma FirstLastGeometry(from: nat, to: nat)
    requires IsAddr(from) && IsAddr(to) && from < to
    ensures LastWord(to) == from <==> to == from + 4
    ensures Apart(from, LastWord(to)) <==> from + 8 <= to
  {
    if to < 4 {
      assert LastWord(to) == to - 4 + ADDR_SPACE;
      assert Wrap(LastWord(to) - from) == ADDR_SPACE - 4 + (to - from);
    } else {
      assert LastWord(to) == to - 4;
      if to - 4 < from {
        assert Wrap(LastWord(to) - from) == ADDR_SPACE - 4 + (to - from);
      }
    }
  }

  /**
   * `probe_first_last`: checks `to > from`, writes the pattern at `from` and
   * at the last word below `to`, and reads both back. It passes exactly when
   * the two words are the same word or share no byte; an overlap of one to
   * three bytes clobbers the first word.
   */
  method ProbeFirstLast(mem: array<bv8>, from: nat, to: nat) returns (ok: bool)
    requires mem.Length == ADDR_SPACE && IsAddr(from) && IsAddr(to)
    modifies mem
    ensures ok <==> from < to && (to == from + 4 || from + 8 <= to)
    ensures from < to ==> mem[..] == Stored(Stored(old(mem[..]), from, PATTERN), LastWord(to), PATTERN)
    ensures from >= to ==> mem[..] == old(mem[..])
  {
    if !(to > from) {
      return false;
    }
    WriteWord(mem, from, PATTERN);
    WriteWord(mem, LastWord(to), PATTERN);
    var first := ReadWord(mem, from);
    var last := ReadWord(mem, LastWord(to));
    ok := first == PATTERN && last == PATTERN;

    ghost var m1 := Stored(old(mem[..]), from, PATTERN);
    LoadStore(m1, LastWord(to), PATTERN);
    FirstLastGeometry(from, to);
    if LastWord(to) == from {
      assert first == PATTERN;
    } else if Apart(from, LastWord(to)) {
      LoadStoreOther(m1, LastWord(to), from, PATTERN);
      LoadStore(old(mem[..]), from, PATTERN);
    } else {
      PatternBytesDistinct();
      OverlapClobbers(old(mem[..]), from, LastWord(to), PATTERN);
    }
  }

  // ---------------------------------------------------------------------------
  // probe_range
  // ---------------------------------------------------------------------------

  /** `0xcafedead + 0xab + i` as a `uint32_t`. */
  function ProbeValue(i: nat): bv32
    requires i < ADDR_SPACE
  {
    0xcafe_dead + 0xab + i as bv32
  }

  /** The address of probe `i`: `addr` starts at `from` and grows by `incr`, wrapping like `uintptr_t`. */
  function ProbeAddr(from: nat, incr: nat, i: nat): nat {
    Wrap(from + i * incr)
  }

  /** The memory after the first `n` probes. */
  function ProbeStores(m: seq<bv8>, from: nat, incr: nat, n: nat): (r: seq<bv8>)
    requires IsMemory(m) && n <= ADDR_SPACE
    ensures IsMemory(r)
  {
    if n == 0 then m
    else Stored(ProbeStores(m, from, incr, n - 1), ProbeAddr(from, incr, n - 1), ProbeValue(n - 1))
  }

  /** Every probe address lies in [from, to), so none of them wraps. */
  lemma {:induction false} ProbeInRange(from: nat, to: nat, samples: nat, i: nat)
    requires IsAddr(to) && from < to && 0 < samples && i < samples
    ensures var incr := (to - from) / samples; from <= from + i * incr < to && ProbeAddr(from, incr, i) == from + i * incr
  {
    var incr := (to - from) / samples;
    assert samples * incr <= to - from;
    Bits.NonNegativeProduct(samples - 1 - i, incr);
    assert (samples - 1 - i) * incr == samples * incr - incr - i * incr;
    Bits.NonNegativeProduct(i, incr);
  }

  /** Advancing `addr` by `incr` moves to the next probe. */
  lemma NextProbeAddr(from: nat, incr: nat, i: nat)
    ensures Wrap(ProbeAddr(from, incr, i) + incr) == ProbeAddr(from, incr, i + 1)
  {
    assert from + (i + 1) * incr == from + i * incr + incr;
  }

  /** One probe: write `expected` at `addr`, read it back and compare. On an ideal memory it always matches. */
  method Probe(mem: array<bv8>, addr: nat, expected: bv32) returns (ok: bool)
    requires mem.Length == ADDR_SPACE && IsAddr(addr)
    modifies mem
    ensures ok && mem[..] == Stored(old(mem[..]), addr, expected)
  {
    WriteWord(mem, addr, expected);
    var read := ReadWord(mem, addr);
    LoadStore(old(mem[..]), addr, expected);
    ok := expected == read;
  }

  /**
   * `probe_range`: checks `samples > 0` and `to > from`, then writes probe
   * value `i` at probe address `i` and reads it back, for each `i < samples`.
   * On an ideal memory every read-back matches, so it passes exactly when
   * the two checks do.
   */
  method ProbeRange(mem: array<bv8>, from: nat, to: nat, samples: int) returns (ok: bool)
    requires mem.Length == ADDR_SPACE && IsAddr(from) && IsAddr(to) && samples < INT_LIMIT
    modifies mem
    ensures ok <==> samples > 0 && from < to
    ensures ok ==> mem[..] == ProbeStores(old(mem[..]), from, (to - from) / samples, samples)
    ensures !ok ==> mem[..] == old(mem[..])
  {
    if !(samples > 0) {
      return false;
    }
    if !(to > from) {
      return false;
    }
    var addr := from;
    var incr := (to - from) / samples;
    var i := 0;
    ok := true;
    while i < samples && ok
      invariant 0 <= i <= samples && ok
      invariant addr == ProbeAddr(from, incr, i)
      invariant mem[..] == ProbeStores(old(mem[..]), from, incr, i)
    {
      ok := Probe(mem, addr, ProbeValue(i));
      NextProbeAddr(from, incr, i);
      addr := Wrap(addr + incr);
      i := i + 1;
    }
  }

  // ---------------------------------------------------------------------------
  // scan_range
  // ---------------------------------------------------------------------------

  /** `0xcafecafe + i` as a `uint32_t`. */
  function ScanValue(i: nat): bv32
    requires i < ADDR_SPACE
  {
    0xcafe_cafe + i as bv32
  }

  /** The address of word `i` of the block at `block`. */
  function BlockWord(block: nat, i: nat): nat {
    Wrap(block + 4 * i)
  }

  /** Distinct words of a block of at most 2^30 words share no byte. */
  lemma BlockWordsApart(block: nat, i: nat, j: nat)
    requires IsAddr(block) && i < j < ADDR_SPACE / 4
    ensures Apart(BlockWord(block, j), BlockWord(block, i))
  {
    var x, y := block + 4 * i, block + 4 * j;
    WrapNear(x);
    WrapNear(y);
    WrapNear(Wrap(x) - Wrap(y));
  }

  /** The memory after the first `n` words of the block at `block` are written. */
  function BlockStores(m: seq<bv8>, block: nat, n: nat): (r: seq<bv8>)
    requires IsMemory(m) && n <= ADDR_SPACE
    ensures IsMemory(r)
  {
    if n == 0 then m
    else Stored(BlockStores(m, block, n - 1), BlockWord(block, n - 1), ScanValue(n - 1))
  }

  /** Within a block of at most 2^30 words every word reads back what was written to it. */
  lemma {:induction false} BlockReadBack(m: seq<bv8>, block: nat, n: nat, i: nat)
    requires IsMemory(m) && IsAddr(block) && i < n <= ADDR_SPACE / 4
    ensures Loaded(BlockStores(m, block, n), BlockWord(block, i)) == ScanValue(i)
  {
    var prev := BlockStores(m, block, n - 1);
    if i == n - 1 {
      LoadStore(prev, BlockWord(block, i), ScanValue(i));
    } else {
      BlockWordsApart(block, i, n - 1);
      LoadStoreOther(prev, BlockWord(block, n - 1), BlockWord(block, i), ScanValue(n - 1));
      BlockReadBack(m, block, n - 1, i);
    }
  }

  /** The memory after every block from `block` up to `to` is written. */
  function ScanStores(m: seq<bv8>, block: nat, to: nat, blocksize: nat): (r: seq<bv8>)
    requires IsMemory(m) && 0 < blocksize <= ADDR_SPACE
    ensures IsMemory(r)
    decreases if block < to then to - block else 0
  {
    if block >= to then m
    else ScanStores(BlockStores(m, block, blocksize), block + blocksize, to, blocksize)
  }

  /** Word `i` of the block at `block` holds `0xcafecafe + i`: the check of the read loop passes for it. */
  predicate WordReadsBack(r: seq<bv8>, block: nat, i: nat)
    requires IsMemory(r) && i < ADDR_SPACE
  {
    Loaded(r, BlockWord(block, i)) == ScanValue(i)
  }

  /** Every word of the block reads back: the checks of the read loop all pass on `r`. */
  ghost predicate ReadsBack(r: seq<bv8>, block: nat, blocksize: nat)
    requires IsMemory(r) && blocksize <= ADDR_SPACE
  {
    forall i :: 0 <= i < blocksize ==> WordReadsBack(r, block, i)
  }

  /** A block of at most 2^30 words reads back whole. */
  lemma SmallBlockReadsBack(m: seq<bv8>, block: nat, blocksize: nat)
    requires IsMemory(m) && IsAddr(block) && blocksize <= ADDR_SPACE / 4
    ensures ReadsBack(BlockStores(m, block, blocksize), block, blocksize)
  {
    forall i | 0 <= i < blocksize
      ensures WordReadsBack(BlockStores(m, block, blocksize), block, i)
    {
      BlockReadBack(m, block, blocksize, i);
    }
  }

  /** Scanning from `block` on `m` leaves the memory `scanned`. */
  ghost predicate ScansTo(m: seq<bv8>, block: nat, to: nat, blocksize: nat, scanned: seq<bv8>)
    requires IsMemory(m) && 0 < blocksize <= ADDR_SPACE
  {
    ScanStores(m, block, to, blocksize) == scanned
  }

  /** A block starts `blocksize` bytes after the previous one, inside the previous one's `4 * blocksize` bytes. */
  lemma BlocksOverlap(block: nat, blocksize: nat)
    requires 1 < blocksize
    ensures block < block + blocksize < block + 4 * blocksize
  {
  }

  /**
   * `scan_range`: writes blocks of `blocksize` words starting at `from`, each
   * block `blocksize` bytes after the previous one, and reads each block
   * back before writing the next. `increment` is not used. On an ideal
   * memory a block of at most 2^30 words reads back whole; a larger one
   * wraps onto itself.
   */
  method ScanRange(mem: array<bv8>, from: nat, to: nat, increment: nat, blocksize: int) returns (ok: bool)
    requires mem.Length == ADDR_SPACE && 0 < blocksize < INT_LIMIT && to + blocksize <= ADDR_SPACE
    modifies mem
    ensures blocksize <= ADDR_SPACE / 4 ==> ok
    ensures ok ==> mem[..] == ScanStores(old(mem[..]), from, to, blocksize)
  {
    ghost var scanned := ScanStores(mem[..], from, to, blocksize);
    var block := from;
    ok := true;
    while block < to && ok
      invariant block < to ==> IsAddr(block)
      invariant blocksize <= ADDR_SPACE / 4 ==> ok
      invariant ok ==> ScansTo(mem[..], block, to, blocksize, scanned)
      decreases if block < to then to - block else 0
    {
      ok := ScanBlock(mem, block, to, blocksize, scanned);
      block := block + blocksize;
    }
  }

  /** One iteration of the outer loop of `scan_range`: write the block at `block`, then read it back. */
  method ScanBlock(mem: array<bv8>, block: nat, to: nat, blocksize: nat, ghost scanned: seq<bv8>) returns (ok: bool)
    requires mem.Length == ADDR_SPACE && IsAddr(block) && block < to && 0 < blocksize <= ADDR_SPACE
    requires ScansTo(mem[..], block, to, blocksize, scanned)
    modifies mem
    ensures ok <==> ReadsBack(BlockStores(old(mem[..]), block, blocksize), block, blocksize)
    ensures blocksize <= ADDR_SPACE / 4 ==> ok
    ensures ScansTo(mem[..], block + blocksize, to, blocksize, scanned)
  {
    ghost var start := mem[..];
    WriteBlock(mem, block, blocksize);
    ok := ReadBlock(mem, block, blocksize);
    if blocksize <= ADDR_SPACE / 4 {
      SmallBlockReadsBack(start, block, blocksize);
    }
  }

  /** The first inner loop of `scan_range`: word `i` of the block gets `0xcafecafe + i`. */
  method WriteBlock(mem: array<bv8>, block: nat, blocksize: nat)
    requires mem.Length == ADDR_SPACE && IsAddr(block) && blocksize <= ADDR_SPACE
    modifies mem
    ensures mem[..] == BlockStores(old(mem[..]), block, blocksize)
  {
    var i := 0;
    while i < blocksize
      invariant 0 <= i <= blocksize
      invariant mem[..] == BlockStores(old(mem[..]), block, i)
    {
      WriteWord(mem, BlockWord(block, i), ScanValue(i));
      i := i + 1;
    }
  }

  /**
   * The second inner loop of `scan_range`: each word of the block is read
   * back and compared with what was written; the first mismatch stops the
   * test. A block of at most 2^30 words reads back whole.
   */
  method ReadBlock(mem: array<bv8>, block: nat, blocksize: nat) returns (ok: bool)
    requires mem.Length == ADDR_SPACE && IsAddr(block) && blocksize <= ADDR_SPACE
    ensures ok <==> ReadsBack(mem[..], block, blocksize)
  {
    var i := 0;
    ok := true;
    while i < blocksize && ok
      invariant 0 <= i <= blocksize
      invariant ok ==> forall j :: 0 <= j < i ==> WordReadsBack(mem[..], block, j)
      invariant !ok ==> 0 < i && !WordReadsBack(mem[..], block, i - 1)
    {
      var read := ReadWord(mem, BlockWord(block, i));
      ok := ScanValue(i) == read;
      i := i + 1;
    }
  }

  // ---------------------------------------------------------------------------
  // The assert macro
  // ---------------------------------------------------------------------------

  /** C's `!x` on an integer. */
  function CNot(x: int): int {
    if x == 0 then 1 else 0
  }

  /** As written, `assert(a == b)` expands to `if (!a == b)`: it fires when `!a` equals `b`. */
  predicate EqFiresAsWritten(a: int, b: int) {
    CNot(a) == b
  }

  /** As written, `assert(a > b)` expands to `if (!a > b)`. */
  predicate GtFiresAsWritten(a: int, b: int) {
    CNot(a) > b
  }

  /** As written, an equality check on a non-zero expected value fires only on a read of 0. */
  lemma EqAsWrittenFiresOnZero(expected: int, read: int)
    requires expected != 0
    ensures EqFiresAsWritten(expected, read) <==> read == 0
  {
  }

  /** The first probe of `probe_range` reading 1 is a mismatch the macro as written lets through. */
  lemma AsWrittenMissesMismatch()
    ensures ProbeValue(0) as int != 1 && !EqFiresAsWritten(ProbeValue(0) as int, 1)
  {
    assert ProbeValue(0) == 0xcafe_df58;
  }

  /** As written, `assert(to > from)` on unsigned addresses fires only when both are 0, so an empty or reversed range passes. */
  lemma GtAsWrittenOnAddresses(to: nat, from: nat)
    ensures GtFiresAsWritten(to, from) <==> to == 0 && from == 0
  {
  }

  /** As written, `assert(samples > 0)` fires only for 0: a negative sample count passes. */
  lemma SamplesCheckAsWritten(samples: int)
    ensures GtFiresAsWritten(samples, 0) <==> samples == 0
  {
  }

  // ---------------------------------------------------------------------------
  // main
  // ---------------------------------------------------------------------------

  const EXT_BASE: nat := 0x2000_0000
  const EXT_END: nat := 0x3fff_ffff
  const AXI_N_SAMPLES: nat := 64

  /**
   * The probes `main` runs: the first word at 0x2000_0000, the last word at
   * 0x3fff_fffb, which is not word-aligned and leaves the final byte
   * 0x3fff_ffff untouched, and 64 samples 0x7f_ffff bytes apart.
   */
  lemma MainProbeGeometry()
    ensures LastWord(EXT_END) == 0x3fff_fffb && LastWord(EXT_END) % 4 == 3
    ensures LastWord(EXT_END) + 3 < EXT_END
    ensures (EXT_END - EXT_BASE) / AXI_N_SAMPLES == 0x7f_ffff
  {
  }

  /**
   * `main`: probe the first and last word of the AXI window, then probe it
   * at 64 evenly spaced addresses, and return 0; a failed check exits 1.
   * On an ideal memory nothing fails.
   */
  method AxiMain(mem: array<bv8>) returns (exit: int)
    requires mem.Length == ADDR_SPACE
    modifies mem
    ensures exit == 0
    ensures mem[..] == ProbeStores(
      Stored(Stored(old(mem[..]), EXT_BASE, PATTERN), LastWord(EXT_END), PATTERN),
      EXT_BASE, (EXT_END - EXT_BASE) / AXI_N_SAMPLES, AXI_N_SAMPLES)
  {
    exit := 1;
    var ok := ProbeFirstLast(mem, EXT_BASE, EXT_END);
    if ok {
      ok := ProbeRange(mem, EXT_BASE, EXT_END, AXI_N_SAMPLES);
      if ok {
        exit := 0;
      }
    }
  }
}
