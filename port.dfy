/**
 * The hardware LUT port: indexed access to one LUT slot through a pair of
 * registers (write the slot number to the index register, then read or write
 * the data register), and the bulk passes over all 256 slots.
 *
 * The memory-mapped registers are replaced by `Gpu`, a fake device that
 * records every 32-bit register access in order and keeps, per register pair,
 * the selected slot and the 256 LUT words.
 */
module Port {
  import opened Bits
  import opened Lut

  /**
   * `screen & 1`: which of the two register pairs a screen number selects.
   * In two's complement the lowest bit of any `int`, negative ones included,
   * is its Euclidean remainder modulo 2, which is what Dafny's `%` gives.
   */
  function Pair(screen: int): (p: nat)
    ensures p < 2
    ensures p == 1 <==> screen % 2 == 1
  {
    screen % 2
  }

  /** The index register of the pair `screen & 1` selects. */
  function IndexReg(screen: int): (a: u32)
    ensures screen % 2 == 1 ==> a == 0x400580
    ensures screen % 2 == 0 ==> a == 0x400480
  {
    if Pair(screen) == 1 then 0x400580 else 0x400480
  }

  /** The data register of the pair `screen & 1` selects. */
  function DataReg(screen: int): (a: u32)
    ensures screen % 2 == 1 ==> a == 0x400584
    ensures screen % 2 == 0 ==> a == 0x400484
  {
    if Pair(screen) == 1 then 0x400584 else 0x400484
  }

  /** One 32-bit register access, as the device sees it. */
  datatype Access = Store(addr: u32, value: u32) | Load(addr: u32, value: u32)

  /** A fake of the two LUT register pairs, standing in for the GPU's register file. */
  class Gpu {
    /** Every register access so far, oldest first. */
    var log: seq<Access>
    /** Per register pair: the slot the index register currently selects. */
    var slot: seq<u8>
    /** Per register pair: the LUT held by the hardware. */
    var tables: seq<Table>

    ghost predicate Valid()
      reads this
    {
      |slot| == 2 && |tables| == 2
    }

    /** A device with the given LUTs, slot 0 selected on both pairs, and nothing accessed yet. */
    constructor (initial: seq<Table>)
      requires |initial| == 2
      ensures Valid()
      ensures log == [] && slot == [0, 0] && tables == initial
    {
      log := [];
      slot := [0, 0];
      tables := initial;
    }

    /** What a 32-bit read of `addr` returns: the selected LUT word, the selected slot, or 0 elsewhere. */
    function Peek(addr: u32): u32
      requires Valid()
      reads this
    {
      if addr == DataReg(0) then tables[0][slot[0]]
      else if addr == DataReg(1) then tables[1][slot[1]]
      else if addr == IndexReg(0) then slot[0]
      else if addr == IndexReg(1) then slot[1]
      else 0
    }

    /**
     * A 32-bit register write. Writing an index register selects the slot
     * given by the value's low byte; writing a data register stores the value
     * into the selected slot of that pair's LUT.
     */
    method WriteHWReg(addr: u32, value: u32)
      requires Valid()
      modifies this
      ensures Valid()
      ensures log == old(log) + [Store(addr, value)]
      ensures forall p :: 0 <= p < 2 ==>
        slot[p] == if addr == IndexReg(p) then LowByte(value) else old(slot[p])
      ensures forall p :: 0 <= p < 2 ==>
        tables[p] == if addr == DataReg(p) then old(tables[p][slot[p] := value]) else old(tables[p])
    {
      log := log + [Store(addr, value)];
      if addr == IndexReg(0) {
        slot := slot[0 := LowByte(value)];
      } else if addr == IndexReg(1) {
        slot := slot[1 := LowByte(value)];
      } else if addr == DataReg(0) {
        tables := tables[0 := tables[0][slot[0] := value]];
      } else if addr == DataReg(1) {
        tables := tables[1 := tables[1][slot[1] := value]];
      }
    }

    /** A 32-bit register read: returns what `Peek` says and changes nothing but the log. */
    method ReadHWReg(addr: u32) returns (value: u32)
      requires Valid()
      modifies this
      ensures Valid()
      ensures value == old(Peek(addr))
      ensures log == old(log) + [Load(addr, value)]
      ensures slot == old(slot) && tables == old(tables)
    {
      value := Peek(addr);
      log := log + [Load(addr, value)];
    }
  }

  /** The accesses of one `WriteAt`: the index register gets the slot, then the data register gets the word. */
  function WriteAtTrace(screen: int, idx: u8, w: u32): seq<Access>
  {
    [Store(IndexReg(screen), idx), Store(DataReg(screen), w)]
  }

  /** The accesses of one `ReadAt`: the index register gets the slot, then the data register is read. */
  function ReadAtTrace(screen: int, idx: u8, w: u32): seq<Access>
  {
    [Store(IndexReg(screen), idx), Load(DataReg(screen), w)]
  }

  /** The accesses of writing `words` to slots 0, 1, ... in turn. */
  function WriteAllTrace(screen: int, words: seq<u32>): seq<Access>
    requires |words| <= Slots
  {
    if words == [] then []
    else WriteAllTrace(screen, words[..|words| - 1]) + WriteAtTrace(screen, |words| - 1, words[|words| - 1])
  }

  /** The accesses of reading slots 0, 1, ... in turn, the reads returning `words`. */
  function ReadAllTrace(screen: int, words: seq<u32>): seq<Access>
    requires |words| <= Slots
  {
    if words == [] then []
    else ReadAllTrace(screen, words[..|words| - 1]) + ReadAtTrace(screen, |words| - 1, words[|words| - 1])
  }

  /**
   * A bulk write makes two accesses per slot: access 2k selects slot k on the
   * index register, access 2k+1 stores the k-th word into the data register.
   */
  lemma {:induction false} WriteAllTraceAt(screen: int, words: seq<u32>, k: nat)
    requires |words| <= Slots && k < |words|
    ensures |WriteAllTrace(screen, words)| == 2 * |words|
    ensures WriteAllTrace(screen, words)[2 * k] == Store(IndexReg(screen), k)
    ensures WriteAllTrace(screen, words)[2 * k + 1] == Store(DataReg(screen), words[k])
  {
    var n := |words| - 1;
    var front := words[..n];
    if k < n {
      WriteAllTraceAt(screen, front, k);
      assert front[k] == words[k];
    } else if n > 0 {
      WriteAllTraceAt(screen, front, 0);
    }
  }

  /**
   * A bulk read makes two accesses per slot: access 2k selects slot k on the
   * index register, access 2k+1 reads the k-th word from the data register.
   */
  lemma {:induction false} ReadAllTraceAt(screen: int, words: seq<u32>, k: nat)
    requires |words| <= Slots && k < |words|
    ensures |ReadAllTrace(screen, words)| == 2 * |words|
    ensures ReadAllTrace(screen, words)[2 * k] == Store(IndexReg(screen), k)
    ensures ReadAllTrace(screen, words)[2 * k + 1] == Load(DataReg(screen), words[k])
  {
    var n := |words| - 1;
    var front := words[..n];
    if k < n {
      ReadAllTraceAt(screen, front, k);
      assert front[k] == words[k];
    } else if n > 0 {
      ReadAllTraceAt(screen, front, 0);
    }
  }

  /** `WriteAt`: store the word at `src[off]` into slot `idx & 0xFF` of the screen's LUT. */
  method WriteAt(src: array<u32>, off: nat, idx: u8, screen: int, gpu: Gpu)
    requires gpu.Valid() && off < src.Length
    modifies gpu
    ensures gpu.Valid()
    ensures gpu.log == old(gpu.log) + WriteAtTrace(screen, idx, src[off])
    ensures gpu.slot == old(gpu.slot)[Pair(screen) := idx]
    ensures gpu.tables == old(gpu.tables)[Pair(screen) := old(gpu.tables[Pair(screen)])[idx := src[off]]]
  {
    var pos: u32 := LowByte(idx);
    gpu.WriteHWReg(IndexReg(screen), pos);
    gpu.WriteHWReg(DataReg(screen), src[off]);
  }

  /** `ReadAt`: load slot `idx` of the screen's LUT into `dst[off]`. */
  method ReadAt(dst: array<u32>, off: nat, idx: u8, screen: int, gpu: Gpu)
    requires gpu.Valid() && off < dst.Length
    modifies dst, gpu
    ensures gpu.Valid()
    ensures dst[..] == old(dst[..])[off := old(gpu.tables[Pair(screen)][idx])]
    ensures gpu.log == old(gpu.log) + ReadAtTrace(screen, idx, dst[off])
    ensures gpu.slot == old(gpu.slot)[Pair(screen) := idx]
    ensures gpu.tables == old(gpu.tables)
  {
    var pos: u32 := idx;
    gpu.WriteHWReg(IndexReg(screen), pos);
    var w := gpu.ReadHWReg(DataReg(screen));
    dst[off] := w;
  }

  /**
   * `WriteAll`: write the 256 words at `src` to slots 0 .. 255 of the
   * screen's LUT, one `WriteAt` per slot in increasing order. Afterwards that
   * LUT is exactly those words and the other pair is untouched.
   */
  method WriteAll(src: array<u32>, screen: int, gpu: Gpu)
    requires gpu.Valid() && src.Length >= Slots
    modifies gpu
    ensures gpu.Valid()
    ensures gpu.log == old(gpu.log) + WriteAllTrace(screen, src[..Slots])
    ensures gpu.tables == old(gpu.tables)[Pair(screen) := src[..Slots]]
    ensures gpu.slot == old(gpu.slot)[Pair(screen) := 0xFF]
  {
    var p := Pair(screen);
    var idx: u32 := 0;
    while true
      invariant idx < Slots
      invariant gpu.Valid()
      invariant gpu.log == old(gpu.log) + WriteAllTrace(screen, src[..idx])
      invariant gpu.tables[1 - p] == old(gpu.tables[1 - p])
      invariant forall k :: 0 <= k < idx ==> gpu.tables[p][k] == src[k]
      invariant forall k :: idx <= k < Slots ==> gpu.tables[p][k] == old(gpu.tables[p][k])
      invariant gpu.slot[1 - p] == old(gpu.slot[1 - p])
      invariant idx > 0 ==> gpu.slot[p] == idx - 1
      decreases Slots - idx
    {
      WriteAt(src, idx, LowByte(idx), screen, gpu);
      assert src[..idx + 1] == src[..idx] + [src[idx]];
      idx := idx + 1;
      if !(idx < Slots) {
        break;
      }
    }
    assert gpu.tables[p] == src[..Slots];
  }

  /**
   * `ReadAll`: read slots 0 .. 255 of the screen's LUT into the 256 words at
   * `dst`, one `ReadAt` per slot in increasing order. Afterwards those words
   * are exactly that LUT, and neither LUT has changed.
   */
  method ReadAll(dst: array<u32>, screen: int, gpu: Gpu)
    requires gpu.Valid() && dst.Length >= Slots
    modifies dst, gpu
    ensures gpu.Valid()
    ensures dst[..Slots] == old(gpu.tables[Pair(screen)])
    ensures dst[Slots..] == old(dst[Slots..])
    ensures gpu.log == old(gpu.log) + ReadAllTrace(screen, dst[..Slots])
    ensures gpu.tables == old(gpu.tables)
    ensures gpu.slot == old(gpu.slot)[Pair(screen) := 0xFF]
  {
    var p := Pair(screen);
    var idx: u32 := 0;
    while true
      invariant idx < Slots
      invariant gpu.Valid()
      invariant gpu.tables == old(gpu.tables)
      invariant gpu.log == old(gpu.log) + ReadAllTrace(screen, dst[..idx])
      invariant forall k :: 0 <= k < idx ==> dst[k] == gpu.tables[p][k]
      invariant forall k :: Slots <= k < dst.Length ==> dst[k] == old(dst[k])
      invariant gpu.slot[1 - p] == old(gpu.slot[1 - p])
      invariant idx > 0 ==> gpu.slot[p] == idx - 1
      decreases Slots - idx
    {
      ghost var before := dst[..idx];
      ReadAt(dst, idx, LowByte(idx), screen, gpu);
      assert dst[..idx + 1] == before + [dst[idx]];
      idx := idx + 1;
      if !(idx < Slots) {
        break;
      }
    }
    assert dst[..Slots] == gpu.tables[p];
  }
}
