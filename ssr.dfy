/**
 * Vector-table relocation: SSR_Relocate copies the first n words of the
 * vector table at address 0 to the RAM base 0x20000000 and then points
 * SCB->VTOR there; SSR_Allocate writes one handler address into a slot of
 * the relocated table.
 *
 * Memory is the 4 GiB address space as an array of 2^30 words, word j at
 * byte address 4j, so every address the two functions compute names a word
 * of it.  The memory barriers and the VTOR write are recorded, with the word
 * writes, in a ghost log of accesses: their order is what keeps an interrupt
 * from dispatching through a half-written table.
 */
module Ssr {
  import opened Ports

  /** Number of 32-bit words in the address space. */
  const WORD_COUNT: nat := 0x4000_0000

  /** VTOR_NEW_ADDR, the RAM base of the relocated table, and the index of its first word. */
  const RAM_BASE: Word := 0x2000_0000
  const RAM_WORD: nat := 0x0800_0000

  /** One access to memory or to the system control block, as the log records it. */
  datatype Access =
    | WordWrite(index: nat, value: Word)
    | Dmb
    | Dsb
    | VtorWrite(vtor: Word)

  // ---------------------------------------------------------------------------
  // Addresses

  /** The address SSR_Allocate writes: `VTOR_NEW_ADDR + (VectorIndex << 2)` in uint32_t. */
  function SlotAddress(k: Word): (a: Word)
  {
    (RAM_BASE + (k * 4) % WORD_SIZE) % WORD_SIZE
  }

  /** The word SSR_Allocate writes. */
  function SlotIndex(k: Word): (j: nat)
    ensures j < WORD_COUNT
  {
    SlotAddress(k) / 4
  }

  /**
   * Slot k is word RAM_WORD + k of the address space, counted modulo the
   * address space: the shift drops the top two bits of k and the sum wraps
   * around at 4 GiB.
   */
  lemma SlotIndexWraps(k: Word)
    ensures SlotIndex(k) == (RAM_WORD + k) % WORD_COUNT
    ensures k < WORD_COUNT - RAM_WORD ==> SlotIndex(k) == RAM_WORD + k
  {
    var q := k / WORD_COUNT;
    var r := k % WORD_COUNT;
    assert k * 4 == q * WORD_SIZE + 4 * r;
    assert (k * 4) % WORD_SIZE == 4 * r;
    if RAM_WORD + r < WORD_COUNT {
      assert SlotAddress(k) == RAM_BASE + 4 * r;
    } else {
      assert SlotAddress(k) == RAM_BASE + 4 * r - WORD_SIZE;
    }
  }

  // ---------------------------------------------------------------------------
  // Memory contents

  /** The memory after the first n iterations of the relocation loop: word i copied to word RAM_WORD + i for each i < n. */
  function Relocated(m: seq<Word>, n: int): (r: seq<Word>)
    requires |m| == WORD_COUNT && n <= RAM_WORD
    ensures |r| == |m|
    decreases n
  {
    if n <= 0 then m else Relocated(m, n - 1)[RAM_WORD + n - 1 := m[n - 1]]
  }

  /** After the copy each of the first n table words has its copy at the RAM base, and every other word is as it was, the source table included. */
  lemma {:induction false} RelocatedCopies(m: seq<Word>, n: int)
    requires |m| == WORD_COUNT && n <= RAM_WORD
    ensures forall i :: 0 <= i < n ==> Relocated(m, n)[RAM_WORD + i] == m[i]
    ensures forall j :: 0 <= j < |m| && !(RAM_WORD <= j < RAM_WORD + n) ==> Relocated(m, n)[j] == m[j]
    decreases n
  {
    if n > 0 {
      RelocatedCopies(m, n - 1);
    }
  }

  /** The copy never writes below the RAM base, so the source table is still there to read. */
  lemma {:induction false} RelocatedKeepsSource(m: seq<Word>, n: int, j: nat)
    requires |m| == WORD_COUNT && n <= RAM_WORD && j < RAM_WORD
    ensures Relocated(m, n)[j] == m[j]
    decreases n
  {
    if n > 0 {
      RelocatedKeepsSource(m, n - 1, j);
    }
  }

  /** The memory after SSR_Allocate(h, k): slot k holds h. */
  function Allocated(m: seq<Word>, h: Word, k: Word): (r: seq<Word>)
    requires |m| == WORD_COUNT
  {
    m[SlotIndex(k) := h]
  }

  /** SSR_Allocate changes exactly one word, the word of slot k, which then holds h. */
  lemma AllocatedWritesOneWord(m: seq<Word>, h: Word, k: Word)
    requires |m| == WORD_COUNT
    ensures |Allocated(m, h, k)| == |m|
    ensures Allocated(m, h, k)[SlotIndex(k)] == h
    ensures forall j :: 0 <= j < |m| && j != SlotIndex(k) ==> Allocated(m, h, k)[j] == m[j]
  {
  }

  /**
   * Relocating n vectors and then installing h in slot k < n: the relocated
   * slot k holds h, every other relocated slot holds its copy, and nothing
   * outside the relocated table has changed.
   */
  lemma RelocateThenAllocate(m: seq<Word>, n: int, h: Word, k: Word)
    requires |m| == WORD_COUNT && n <= RAM_WORD && k < n
    ensures Allocated(Relocated(m, n), h, k)[RAM_WORD + k] == h
    ensures forall i :: 0 <= i < n && i != k ==> Allocated(Relocated(m, n), h, k)[RAM_WORD + i] == m[i]
    ensures forall j :: 0 <= j < |m| && !(RAM_WORD <= j < RAM_WORD + n) ==> Allocated(Relocated(m, n), h, k)[j] == m[j]
  {
    SlotIndexWraps(k);
    RelocatedCopies(m, n);
  }

  // ---------------------------------------------------------------------------
  // The order of the accesses

  /** The word writes of the first n iterations of the relocation loop, in order. */
  function CopyWrites(m: seq<Word>, n: int): (w: seq<Access>)
    requires |m| == WORD_COUNT && n <= RAM_WORD
    ensures |w| == if n <= 0 then 0 else n
    decreases n
  {
    if n <= 0 then [] else CopyWrites(m, n - 1) + [WordWrite(RAM_WORD + n - 1, m[n - 1])]
  }

  /** Everything SSR_Relocate does: the copy, DMB, the VTOR write, DSB. */
  function RelocateLog(m: seq<Word>, n: int): seq<Access>
    requires |m| == WORD_COUNT && n <= RAM_WORD
  {
    CopyWrites(m, n) + [Dmb, VtorWrite(RAM_BASE), Dsb]
  }

  /** The effect of one access on memory: a word write in range stores its value, everything else leaves memory alone. */
  function Apply(m: seq<Word>, a: Access): (r: seq<Word>)
    ensures |r| == |m|
  {
    if a.WordWrite? && a.index < |m| then m[a.index := a.value] else m
  }

  /** The memory after a sequence of accesses. */
  function Replay(m: seq<Word>, w: seq<Access>): (r: seq<Word>)
    ensures |r| == |m|
  {
    if |w| == 0 then m else Apply(Replay(m, w[..|w| - 1]), w[|w| - 1])
  }

  /** The copy's word writes only write words, and touch no VTOR. */
  lemma {:induction false} CopyWritesOnlyWords(m: seq<Word>, n: int)
    requires |m| == WORD_COUNT && n <= RAM_WORD
    ensures forall j :: 0 <= j < |CopyWrites(m, n)| ==> CopyWrites(m, n)[j].WordWrite?
    decreases n
  {
    if n > 0 {
      CopyWritesOnlyWords(m, n - 1);
    }
  }

  /** Carrying out the copy's writes one after the other produces the relocated memory. */
  lemma {:induction false} ReplayCopyWrites(m: seq<Word>, n: int)
    requires |m| == WORD_COUNT && n <= RAM_WORD
    ensures Replay(m, CopyWrites(m, n)) == Relocated(m, n)
    decreases n
  {
    if n > 0 {
      var w := CopyWrites(m, n);
      assert w[..|w| - 1] == CopyWrites(m, n - 1);
      ReplayCopyWrites(m, n - 1);
    }
  }

  /**
   * SSR_Relocate writes VTOR once, after the DMB that follows the last word
   * of the copy, and the memory at that moment already holds the whole
   * relocated table: an interrupt taken after the switch finds every copied
   * vector in place.  With n <= 0 nothing is copied and VTOR is still written.
   */
  lemma VtorWrittenAfterCopy(m: seq<Word>, n: int)
    requires |m| == WORD_COUNT && n <= RAM_WORD
    ensures |RelocateLog(m, n)| >= 3
    ensures RelocateLog(m, n)[|RelocateLog(m, n)| - 2] == VtorWrite(RAM_BASE)
    ensures RelocateLog(m, n)[|RelocateLog(m, n)| - 3] == Dmb
    ensures forall j :: 0 <= j < |RelocateLog(m, n)| - 2 ==> !RelocateLog(m, n)[j].VtorWrite?
    ensures Replay(m, RelocateLog(m, n)[..|RelocateLog(m, n)| - 2]) == Relocated(m, n)
    ensures n <= 0 ==> RelocateLog(m, n) == [Dmb, VtorWrite(RAM_BASE), Dsb]
  {
    var c := CopyWrites(m, n);
    var w := RelocateLog(m, n);
    CopyWritesOnlyWords(m, n);
    assert w[..|w| - 2] == c + [Dmb];
    assert (c + [Dmb])[..|c|] == c;
    ReplayCopyWrites(m, n);
  }

  /** Appending logs piece by piece appends their concatenation. */
  lemma Regrouped(a: seq<Access>, b: seq<Access>, c: seq<Access>, d: seq<Access>)
    ensures ((a + b) + c) + d == a + (b + (c + d))
  {
  }

  // ---------------------------------------------------------------------------
  // The driver

  /** Memory and the system control block's VTOR, with the log of accesses made to them. */
  class Memory {
    /** The words of the address space, word j at byte address 4j. */
    const words: array<Word>
    /** SCB->VTOR. */
    var vtor: Word
    ghost var log: seq<Access>

    ghost predicate Valid()
      reads this
    {
      words.Length == WORD_COUNT
    }

    /** Memory holding `words`, with VTOR at `vtor` and nothing logged yet. */
    constructor(words: array<Word>, vtor: Word)
      requires words.Length == WORD_COUNT
      ensures Valid() && this.words == words && this.vtor == vtor && log == []
    {
      this.words := words;
      this.vtor := vtor;
      log := [];
    }

    /**
     * SSR_Relocate: the copy loop, then DMB, VTOR := VTOR_NEW_ADDR, DSB.
     * The copy must be complete before VTOR is written: the log shows that it is.
     */
    method Relocate(nVectors: int)
      requires Valid() && nVectors <= RAM_WORD
      modifies this, words
      ensures Valid()
      ensures words[..] == Relocated(old(words[..]), nVectors)
      ensures vtor == RAM_BASE
      ensures log == old(log) + RelocateLog(old(words[..]), nVectors)
    {
      ghost var m, log0 := words[..], log;
      CopyVectors(nVectors);
      log := log + [Dmb];
      vtor := RAM_BASE;
      log := log + [VtorWrite(RAM_BASE), Dsb];
      Regrouped(log0, CopyWrites(m, nVectors), [Dmb], [VtorWrite(RAM_BASE), Dsb]);
    }

    /**
     * The loop of SSR_Relocate: copies words 0 to nVectors - 1 to the RAM
     * base, one at a time and in increasing order.  `i << 2` is the byte
     * offset of word i, so the loop works on word indices.
     */
    method CopyVectors(nVectors: int)
      requires Valid() && nVectors <= RAM_WORD
      modifies this, words
      ensures Valid()
      ensures words[..] == Relocated(old(words[..]), nVectors)
      ensures vtor == old(vtor)
      ensures log == old(log) + CopyWrites(old(words[..]), nVectors)
    {
      ghost var m, log0 := words[..], log;
      var i := 0;
      while i < nVectors
        invariant 0 <= i <= RAM_WORD
        invariant i == 0 || i <= nVectors
        invariant words[..] == Relocated(m, i)
        invariant log == log0 + CopyWrites(m, i)
        invariant vtor == old(vtor)
      {
        RelocatedKeepsSource(m, i, i);
        var v := words[i];
        words[RAM_WORD + i] := v;
        log := log + [WordWrite(RAM_WORD + i, v)];
        i := i + 1;
      }
      if nVectors <= 0 {
        assert Relocated(m, nVectors) == m && CopyWrites(m, nVectors) == [];
      }
    }

    /** SSR_Allocate: one word write at the slot's address, then DMB and DSB; no bounds check and no VTOR access. */
    method Allocate(isrAddress: Word, vectorIndex: Word)
      requires Valid()
      modifies this, words
      ensures Valid()
      ensures words[..] == Allocated(old(words[..]), isrAddress, vectorIndex)
      ensures vtor == old(vtor)
      ensures log == old(log) + [WordWrite(SlotIndex(vectorIndex), isrAddress), Dmb, Dsb]
    {
      var address := (RAM_BASE + (vectorIndex * 4) % WORD_SIZE) % WORD_SIZE;
      words[address / 4] := isrAddress;
      log := log + [WordWrite(address / 4, isrAddress), Dmb, Dsb];
    }
  }
}
