/**
 * The DMA driver of the STM32F103xB, which has one controller (DMA1) with
 * seven channels.  A channel is named by the address of its register block;
 * the driver turns that handle into a channel index (0 to 6) and from the
 * index derives the channel's IRQ number and its four-bit group of flags in
 * the controller's ISR and IFCR registers (RM0008, section 13.4).
 */
module Dma {
  import opened Bits
  import opened Ports

  /** The channel register blocks of DMA1, 0x14 bytes apart. */
  const DMA1_CHANNEL1_BASE: Word := 0x4002_0008
  const DMA1_CHANNEL2_BASE: Word := 0x4002_001C
  const DMA1_CHANNEL3_BASE: Word := 0x4002_0030
  const DMA1_CHANNEL4_BASE: Word := 0x4002_0044
  const DMA1_CHANNEL5_BASE: Word := 0x4002_0058
  const DMA1_CHANNEL6_BASE: Word := 0x4002_006C
  const DMA1_CHANNEL7_BASE: Word := 0x4002_0080
  const CHANNEL_SIZE: Word := 0x14
  const CHANNEL_COUNT: bv32 := 7

  /** The index DMA_GetChannelIndex returns for a handle that is not a channel. */
  const NO_CHANNEL: bv32 := 0xFFFF_FFFF

  /** IRQ number of DMA1 channel 1; channels 2 to 7 follow it. */
  const DMA1_CHANNEL1_IRQN: int := 11

  /** CCR bits. */
  const DMA_CCR_EN: bv32 := 0x0001
  const DMA_CCR_TCIE: bv32 := 0x0002
  const DMA_CCR_HTIE: bv32 := 0x0004
  const DMA_CCR_TEIE: bv32 := 0x0008
  const DMA_CCR_DIR: bv32 := 0x0010
  const DMA_CCR_CIRC: bv32 := 0x0020
  const DMA_CCR_PINC: bv32 := 0x0040
  const DMA_CCR_MINC: bv32 := 0x0080
  const DMA_CCR_PSIZE: bv32 := 0x0300
  const DMA_CCR_MSIZE: bv32 := 0x0C00
  const DMA_CCR_MEM2MEM: bv32 := 0x4000

  /** Channel 1's flags in ISR and its clear bits in IFCR; channel i's group is these shifted by 4*i. */
  const DMA_ISR_GIF1: bv32 := 0x1
  const DMA_ISR_TCIF1: bv32 := 0x2
  const DMA_ISR_HTIF1: bv32 := 0x4
  const DMA_ISR_TEIF1: bv32 := 0x8
  const DMA_IFCR_CGIF1: bv32 := 0x1
  const DMA_IFCR_CTCIF1: bv32 := 0x2
  const DMA_IFCR_CHTIF1: bv32 := 0x4
  const DMA_IFCR_CTEIF1: bv32 := 0x8

  /** The driver's masks. */
  const DMA_IFCR_ALL: bv32 := DMA_IFCR_CTEIF1 | DMA_IFCR_CHTIF1 | DMA_IFCR_CTCIF1 | DMA_IFCR_CGIF1
  const DMA_CCR_ALL: bv32 := DMA_CCR_TCIE | DMA_CCR_HTIE | DMA_CCR_TEIE
  const DMA_CCR_BYTES: bv32 := 0
  const DMA_CCR_RECEIVE_BYTES: bv32 := (DMA_CCR_TCIE | DMA_CCR_TEIE) | DMA_CCR_MINC | DMA_CCR_BYTES
  /** The interrupt-enable bits DMA_SetInterruptFlags lets through. */
  const INTERRUPT_ENABLES: bv32 := 0x0E
  /** A channel's group of flags, and the width of a group. */
  const DMA_CHANNEL_INTS_MASK: bv32 := 0x0F
  const DMA_CHANNEL_INTS_BITS: bv5 := 4

  /**
   * Flag masks and the ISR and IFCR registers are modelled by the sets of
   * their 1-bits (GroupBitsOfMask relates the two): the four flags of a
   * group, and the position of TCIF within it.
   */
  const ALL_FLAGS: set<bv5> := {0, 1, 2, 3}
  const TCIF: bv5 := 1

  /** The register block of the channel with index `i` (0 for channel 1). */
  function ChannelBase(i: bv32): Word
    requires i < CHANNEL_COUNT
  {
    DMA1_CHANNEL1_BASE + (i as int) * CHANNEL_SIZE
  }

  /** The named channel blocks are the blocks of indices 0 to 6. */
  lemma ChannelBlocks()
    ensures DMA1_CHANNEL1_BASE == ChannelBase(0) && DMA1_CHANNEL2_BASE == ChannelBase(1)
    ensures DMA1_CHANNEL3_BASE == ChannelBase(2) && DMA1_CHANNEL4_BASE == ChannelBase(3)
    ensures DMA1_CHANNEL5_BASE == ChannelBase(4) && DMA1_CHANNEL6_BASE == ChannelBase(5)
    ensures DMA1_CHANNEL7_BASE == ChannelBase(6)
  {
  }

  /** DMA_GetChannelIndex: the index of the channel whose block is at `ch`, or NO_CHANNEL. */
  function GetChannelIndex(ch: Word): (index: bv32)
    ensures index < CHANNEL_COUNT || index == NO_CHANNEL
  {
    if ch == DMA1_CHANNEL1_BASE then 0
    else if ch == DMA1_CHANNEL2_BASE then 1
    else if ch == DMA1_CHANNEL3_BASE then 2
    else if ch == DMA1_CHANNEL4_BASE then 3
    else if ch == DMA1_CHANNEL5_BASE then 4
    else if ch == DMA1_CHANNEL6_BASE then 5
    else if ch == DMA1_CHANNEL7_BASE then 6
    else NO_CHANNEL
  }

  /** The index of each channel's block is that channel's index. */
  lemma ChannelIndexOfBase(i: bv32)
    requires i < CHANNEL_COUNT
    ensures GetChannelIndex(ChannelBase(i)) == i
  {
  }

  /**
   * A recognised handle is the block of the index it yields, and only a
   * handle that is no channel's block yields NO_CHANNEL; together with
   * ChannelIndexOfBase, the lookup is a bijection between the seven blocks
   * and the indices 0 to 6.
   */
  lemma ChannelIndexNamesBase(ch: Word)
    ensures GetChannelIndex(ch) < CHANNEL_COUNT ==> ChannelBase(GetChannelIndex(ch)) == ch
    ensures GetChannelIndex(ch) == NO_CHANNEL <==> forall i: bv32 :: i < CHANNEL_COUNT ==> ChannelBase(i) != ch
  {
    if GetChannelIndex(ch) == NO_CHANNEL {
      forall i: bv32 | i < CHANNEL_COUNT
        ensures ChannelBase(i) != ch
      {
        ChannelIndexOfBase(i);
      }
    }
  }

  /**
   * DMA_GetChannelIRQn: the IRQ number of a recognised channel, and -1 for
   * any other handle (the driver's uint32_t -1 converted to the signed
   * IRQn_Type).
   */
  function GetChannelIRQn(ch: Word): (irq: int)
    ensures irq == -1 || DMA1_CHANNEL1_IRQN <= irq < DMA1_CHANNEL1_IRQN + CHANNEL_COUNT as int
    ensures irq == -1 <==> GetChannelIndex(ch) == NO_CHANNEL
  {
    var index := GetChannelIndex(ch);
    if index < CHANNEL_COUNT then index as int + DMA1_CHANNEL1_IRQN else -1
  }

  /** Channel i+1 interrupts on IRQ 11+i, so the seven channels have seven distinct IRQs; every other handle yields -1. */
  lemma ChannelIrqs(ch: Word)
    ensures GetChannelIndex(ch) < CHANNEL_COUNT ==> GetChannelIRQn(ch) == DMA1_CHANNEL1_IRQN + GetChannelIndex(ch) as int
    ensures GetChannelIRQn(ch) == -1 <==> GetChannelIndex(ch) == NO_CHANNEL
    ensures GetChannelIRQn(ch) == -1 || 11 <= GetChannelIRQn(ch) <= 17
  {
  }

  /** Two handles share an IRQ number only if they are the same channel block or both unrecognised. */
  lemma ChannelIrqsDistinct(ch: Word, other: Word)
    requires GetChannelIRQn(ch) == GetChannelIRQn(other)
    ensures ch == other || GetChannelIRQn(ch) == -1
  {
    ChannelIndexNamesBase(ch);
    ChannelIndexNamesBase(other);
  }

  /**
   * The 1-bits of `(flags & 0xF) << 4*index`, for a channel index below 7:
   * bit n is set when it lies in the channel's group (n / 4 == index) and
   * flag n % 4 is among `flags`.
   */
  function GroupBits(index: bv5, flags: set<bv5>): set<bv5>
  {
    set b | b in flags && b < DMA_CHANNEL_INTS_BITS :: DMA_CHANNEL_INTS_BITS * index + b
  }

  /** The members of GroupBits: bit n is in channel k's group and flag n % 4 is among `flags`. */
  lemma GroupBitsMembers(k: bv5, flags: set<bv5>)
    requires k < 7
    ensures forall n: bv5 :: n in GroupBits(k, flags) <==> n / 4 == k && n % 4 in flags
  {
    forall n: bv5
      ensures n in GroupBits(k, flags) <==> n / 4 == k && n % 4 in flags
    {
      if n / 4 == k && n % 4 in flags {
        assert n == 4 * k + n % 4;
      }
    }
  }

  /** GroupBits is the set of 1-bits of the shifted mask the driver computes. */
  lemma GroupBitsOfMask(flags: bv32, fs: set<bv5>, k: bv5)
    requires Ones(flags, fs) && k < 7
    ensures Ones((flags & DMA_CHANNEL_INTS_MASK) << (DMA_CHANNEL_INTS_BITS * k), GroupBits(k, fs))
  {
    GroupBitsMembers(k, fs);
    forall n: bv5
      ensures n in GroupBits(k, fs) <==> ((flags & DMA_CHANNEL_INTS_MASK) << (DMA_CHANNEL_INTS_BITS * k)) & Bit(n) != 0
    {
      ShiftedGroupBit(flags, k, n);
    }
  }

  /** Bit n of `(flags & 0xF) << 4*k` is bit n % 4 of `flags` when n is in group k, and clear otherwise. */
  lemma ShiftedGroupBit(flags: bv32, k: bv5, n: bv5)
    requires k < 7
    ensures ((flags & 0xF) << (4 * k)) & Bit(n) != 0 <==> n / 4 == k && flags & Bit(n % 4) != 0
  {
  }

  /**
   * DMA_CheckInterrupts: whether ISR has a 1-bit among the flags `flags`
   * (0 to 3) moved to the group of channel `ch`.  For a handle that is not
   * a channel the answer is false (on a device without DMA2 the second
   * branch is empty).
   */
  function CheckInterrupts(isr: set<bv5>, ch: Word, flags: set<bv5>): (raised: bool)
    ensures raised ==> GetChannelIndex(ch) < CHANNEL_COUNT
    ensures raised ==> isr != {} && flags != {}
  {
    var index := GetChannelIndex(ch);
    if index < CHANNEL_COUNT then isr * GroupBits(index as bv5, flags) != {} else false
  }

  /** Channel i's test is true exactly when ISR holds a bit of channel i's group whose flag is among `flags`. */
  lemma CheckReadsOwnGroup(isr: set<bv5>, i: bv32, flags: set<bv5>)
    requires i < CHANNEL_COUNT
    ensures CheckInterrupts(isr, ChannelBase(i), flags) <==> exists n: bv5 :: n in isr && n / 4 == i as bv5 && n % 4 in flags
  {
    ChannelIndexOfBase(i);
    GroupBitsMembers(i as bv5, flags);
    if CheckInterrupts(isr, ChannelBase(i), flags) {
      var n :| n in isr * GroupBits(i as bv5, flags);
      assert n in isr && n / 4 == i as bv5 && n % 4 in flags;
    } else {
      assert isr * GroupBits(i as bv5, flags) == {};
      forall n: bv5 | n / 4 == i as bv5 && n % 4 in flags
        ensures n !in isr
      {
        assert n in GroupBits(i as bv5, flags);
        assert n !in isr * GroupBits(i as bv5, flags);
      }
    }
  }

  /** Flags of other channels do not affect the test: two ISR values that agree on channel i's group give the same answer. */
  lemma CheckIgnoresOtherChannels(isr: set<bv5>, isr2: set<bv5>, i: bv32, flags: set<bv5>)
    requires i < CHANNEL_COUNT
    requires forall n: bv5 :: n / 4 == i as bv5 ==> (n in isr <==> n in isr2)
    ensures CheckInterrupts(isr, ChannelBase(i), flags) == CheckInterrupts(isr2, ChannelBase(i), flags)
  {
    ChannelIndexOfBase(i);
    GroupBitsMembers(i as bv5, flags);
    assert isr * GroupBits(i as bv5, flags) == isr2 * GroupBits(i as bv5, flags);
  }

  /** A handle that is not a channel reports no flag. */
  lemma CheckUnknownChannel(isr: set<bv5>, ch: Word, flags: set<bv5>)
    requires GetChannelIndex(ch) == NO_CHANNEL
    ensures !CheckInterrupts(isr, ch, flags)
  {
  }

  /** IFCR after DMA_ClearInterrupts: the flags added to the channel's group; unchanged for an unknown handle. */
  function FlagsCleared(ifcr: set<bv5>, ch: Word, flags: set<bv5>): set<bv5>
  {
    var index := GetChannelIndex(ch);
    if index < CHANNEL_COUNT then ifcr + GroupBits(index as bv5, flags) else ifcr
  }

  /** Clearing writes channel i's group only: bit n of the group is set when flag n % 4 is among `flags`, and no bit of another group changes. */
  lemma ClearWritesOwnGroup(ifcr: set<bv5>, i: bv32, flags: set<bv5>)
    requires i < CHANNEL_COUNT
    ensures forall n: bv5 :: n / 4 == i as bv5 ==>
              (n in FlagsCleared(ifcr, ChannelBase(i), flags) <==> n in ifcr || n % 4 in flags)
    ensures forall n: bv5 :: n / 4 != i as bv5 ==> (n in FlagsCleared(ifcr, ChannelBase(i), flags) <==> n in ifcr)
  {
    ChannelIndexOfBase(i);
    GroupBitsMembers(i as bv5, flags);
  }

  /** The one-argument DMA_ClearInterrupts sets all four clear bits of the channel's group. */
  lemma ClearAllWritesWholeGroup(ifcr: set<bv5>, i: bv32)
    requires i < CHANNEL_COUNT
    ensures forall n: bv5 :: n / 4 == i as bv5 ==> n in FlagsCleared(ifcr, ChannelBase(i), ALL_FLAGS)
  {
    ClearWritesOwnGroup(ifcr, i, ALL_FLAGS);
  }

  /** The header's masks: DMA_IFCR_ALL is a whole group, DMA_CCR_ALL the 0x0E mask of DMA_SetInterruptFlags. */
  lemma MaskValues()
    ensures Ones(DMA_IFCR_ALL, ALL_FLAGS) && Ones(DMA_ISR_TCIF1, {TCIF})
    ensures DMA_IFCR_ALL == DMA_CHANNEL_INTS_MASK
    ensures DMA_IFCR_ALL == DMA_ISR_GIF1 | DMA_ISR_TCIF1 | DMA_ISR_HTIF1 | DMA_ISR_TEIF1
    ensures DMA_CCR_ALL == INTERRUPT_ENABLES
  {
  }

  /** CCR after DMA_SetInterruptFlags: the enables in `flags & 0x0E` set when `status` holds, cleared otherwise. */
  function InterruptsSet(ccr: bv32, flags: bv32, status: bool): bv32
  {
    var f := flags & INTERRUPT_ENABLES;
    if status then SetMask(ccr, f) else ClearMask(ccr, f)
  }

  /**
   * Only the three interrupt enables can change: each one named in `flags`
   * takes the value `status`, the others keep theirs, and EN and every
   * configuration bit are untouched.
   */
  lemma InterruptsSetTouchesOnlyEnables(ccr: bv32, flags: bv32, status: bool)
    ensures InterruptsSet(ccr, flags, status) & !DMA_CCR_ALL == ccr & !DMA_CCR_ALL
    ensures InterruptsSet(ccr, flags, status) & (flags & DMA_CCR_ALL) == if status then flags & DMA_CCR_ALL else 0
    ensures InterruptsSet(ccr, flags, status) & (DMA_CCR_ALL & !flags) == ccr & (DMA_CCR_ALL & !flags)
  {
  }

  /** A channel's registers: CCR, CPAR, CMAR and CNDTR. */
  datatype ChannelRegs = ChannelRegs(ccr: bv32, cpar: Word, cmar: Word, cndtr: Half)

  /** Whether DMA_Move accepts a call on a channel with configuration `ccr`: the channel is idle and both pointers are non-null. */
  predicate MoveAccepted(ccr: bv32, paddr: Word, maddr: Word)
  {
    ccr & DMA_CCR_EN == 0 && paddr != 0 && maddr != 0
  }

  /** The registers after an accepted DMA_Move: both addresses, the count, and CCR overwritten with the receive profile and EN. */
  function MoveArmed(paddr: Word, maddr: Word, n: Half): ChannelRegs
  {
    ChannelRegs(DMA_CCR_RECEIVE_BYTES | DMA_CCR_EN, paddr, maddr, n)
  }

  /** The channel is running after an accepted move, so a second move on it is refused until it is disabled. */
  lemma SecondMoveRejected(paddr: Word, maddr: Word, n: Half, paddr2: Word, maddr2: Word)
    ensures !MoveAccepted(MoveArmed(paddr, maddr, n).ccr, paddr2, maddr2)
  {
  }

  /**
   * The profile DMA_Move writes: transfer-complete and transfer-error
   * interrupts, memory increment, byte transfers, and the channel enabled;
   * no half-transfer interrupt, memory-to-peripheral direction, circular
   * mode, peripheral increment or memory-to-memory mode.
   */
  lemma MoveProfile(paddr: Word, maddr: Word, n: Half)
    ensures MoveArmed(paddr, maddr, n).ccr
         == DMA_CCR_EN | DMA_CCR_TCIE | DMA_CCR_TEIE | DMA_CCR_MINC
    ensures MoveArmed(paddr, maddr, n).ccr
         & (DMA_CCR_HTIE | DMA_CCR_DIR | DMA_CCR_CIRC | DMA_CCR_PINC | DMA_CCR_PSIZE | DMA_CCR_MSIZE | DMA_CCR_MEM2MEM) == 0
  {
  }

  /** A DMA channel's register block. */
  class Channel {
    /** The block's address, which the driver passes as the channel handle. */
    const base: Word
    var ccr: bv32
    var cpar: Word
    var cmar: Word
    var cndtr: Half

    function Regs(): ChannelRegs
      reads this
    {
      ChannelRegs(ccr, cpar, cmar, cndtr)
    }

    /** The channel at `base` with registers `regs`. */
    constructor(base: Word, regs: ChannelRegs)
      ensures this.base == base && Regs() == regs
    {
      this.base := base;
      ccr, cpar, cmar, cndtr := regs.ccr, regs.cpar, regs.cmar, regs.cndtr;
    }

    /** DMA_SetInterruptFlags: CCR |= flags & 0x0E when `status`, CCR &= ~(flags & 0x0E) otherwise. */
    method SetInterruptFlags(flags: bv32, status: bool)
      modifies this
      ensures Regs() == old(Regs()).(ccr := InterruptsSet(old(ccr), flags, status))
    {
      var f := flags & INTERRUPT_ENABLES;
      if status {
        ccr := SetMask(ccr, f);
      } else {
        ccr := ClearMask(ccr, f);
      }
    }

    /** DMA_EnableInterrupts: SetInterruptFlags with status true. */
    method EnableInterrupts(flags: bv32)
      modifies this
      ensures Regs() == old(Regs()).(ccr := InterruptsSet(old(ccr), flags, true))
    {
      SetInterruptFlags(flags, true);
    }

    /** DMA_DisableInterrupts: SetInterruptFlags with status false. */
    method DisableInterrupts(flags: bv32)
      modifies this
      ensures Regs() == old(Regs()).(ccr := InterruptsSet(old(ccr), flags, false))
    {
      SetInterruptFlags(flags, false);
    }
  }

  /** The DMA1 controller's flag registers. */
  class Controller {
    var isr: set<bv5>
    var ifcr: set<bv5>

    /** A controller with ISR `isr` and IFCR `ifcr`. */
    constructor(isr: set<bv5>, ifcr: set<bv5>)
      ensures this.isr == isr && this.ifcr == ifcr
    {
      this.isr, this.ifcr := isr, ifcr;
    }

    /** DMA_ClearInterrupts(CH, flags): IFCR |= (flags & 0xF) << 4*index for a recognised channel, nothing otherwise. */
    method ClearInterrupts(ch: Channel, flags: set<bv5>)
      modifies this
      ensures ifcr == FlagsCleared(old(ifcr), ch.base, flags)
      ensures isr == old(isr)
    {
      var index := GetChannelIndex(ch.base);
      if index < CHANNEL_COUNT {
        ifcr := ifcr + GroupBits(index as bv5, flags);
      }
    }

    /** DMA_ClearInterrupts(CH): the two-argument form with DMA_IFCR_ALL. */
    method ClearAllInterrupts(ch: Channel)
      modifies this
      ensures ifcr == FlagsCleared(old(ifcr), ch.base, ALL_FLAGS)
      ensures isr == old(isr)
    {
      ClearInterrupts(ch, ALL_FLAGS);
    }
  }

  /**
   * DMA_Move: refuses (returning false and writing nothing) a null channel,
   * a channel whose EN bit is set, or a null address; otherwise disables the
   * channel, writes CPAR, CMAR and CNDTR, then overwrites CCR with the
   * receive profile and EN, and returns true.
   */
  method Move(channel: Channel?, paddr: Word, maddr: Word, n: Half) returns (result: bool)
    modifies channel
    ensures result <==> channel != null && MoveAccepted(old(channel.ccr), paddr, maddr)
    ensures channel != null ==> channel.Regs() == if result then MoveArmed(paddr, maddr, n) else old(channel.Regs())
  {
    result := false;
    if channel != null && channel.ccr & DMA_CCR_EN == 0 {
      if paddr != 0 && maddr != 0 {
        channel.ccr := ClearMask(channel.ccr, DMA_CCR_EN);
        channel.cpar := paddr;
        channel.cmar := maddr;
        channel.cndtr := n;
        channel.ccr := DMA_CCR_RECEIVE_BYTES | DMA_CCR_EN;
        result := true;
      }
    }
  }

  // ---------------------------------------------------------------------------
  // What a transfer configured by a channel's registers does

  /** Whether the channel starts without waiting for a peripheral request (MEM2MEM). */
  predicate RunsWithoutRequest(ccr: bv32)
  {
    ccr & DMA_CCR_MEM2MEM != 0
  }

  /** The addresses a byte transfer with DIR clear reads, in order: CPAR, stepping by one when PINC is set. */
  function SourceAddresses(r: ChannelRegs): (s: seq<Word>)
    ensures |s| == r.cndtr
  {
    seq(r.cndtr, i requires 0 <= i < r.cndtr =>
      if r.ccr & DMA_CCR_PINC != 0 then (r.cpar + i) % WORD_SIZE else r.cpar)
  }

  /** The addresses a byte transfer with DIR clear writes, in order: CMAR, stepping by one when MINC is set. */
  function DestinationAddresses(r: ChannelRegs): (s: seq<Word>)
    ensures |s| == r.cndtr
  {
    seq(r.cndtr, i requires 0 <= i < r.cndtr =>
      if r.ccr & DMA_CCR_MINC != 0 then (r.cmar + i) % WORD_SIZE else r.cmar)
  }

  /** `n` consecutive byte addresses from `start`. */
  function Block(start: Word, n: Half): (s: seq<Word>)
    ensures |s| == n
  {
    seq(n, i requires 0 <= i < n => (start + i) % WORD_SIZE)
  }

  /** A memcpy of CNDTR bytes from CPAR to CMAR: started by software, read from CPAR, each block stepped through byte by byte. */
  predicate CopiesBlock(r: ChannelRegs)
  {
    RunsWithoutRequest(r.ccr) && r.ccr & DMA_CCR_DIR == 0
    && r.ccr & (DMA_CCR_PSIZE | DMA_CCR_MSIZE) == 0
    && SourceAddresses(r) == Block(r.cpar, r.cndtr)
    && DestinationAddresses(r) == Block(r.cmar, r.cndtr)
  }

  /**
   * DMA_Move as written is no memcpy: the channel waits for a peripheral
   * request instead of starting, and with PINC clear it reads the byte at
   * the source address again for every byte it writes.
   */
  lemma MoveIsNoCopy(paddr: Word, maddr: Word, n: Half)
    ensures !RunsWithoutRequest(MoveArmed(paddr, maddr, n).ccr)
    ensures forall i :: 0 <= i < n ==> SourceAddresses(MoveArmed(paddr, maddr, n))[i] == paddr
    ensures n >= 2 ==> !CopiesBlock(MoveArmed(paddr, maddr, n))
  {
    MoveProfile(paddr, maddr, n);
    if n >= 2 {
      assert SourceAddresses(MoveArmed(paddr, maddr, n))[1] != Block(paddr, n)[1];
    }
  }

  /** The memory-to-memory byte profile: both increments and MEM2MEM. */
  const DMA_CCR_MOVE_BYTES: bv32 := DMA_CCR_PINC | DMA_CCR_MINC | DMA_CCR_BYTES | DMA_CCR_MEM2MEM

  /** The registers after an accepted move with the memory-to-memory profile. */
  function CopyArmed(paddr: Word, maddr: Word, n: Half): ChannelRegs
  {
    ChannelRegs(DMA_CCR_MOVE_BYTES | DMA_CCR_EN, paddr, maddr, n)
  }

  /** With the memory-to-memory profile the channel copies the whole block, and a second move is still refused while it runs. */
  lemma CopyArmedCopiesBlock(paddr: Word, maddr: Word, n: Half, paddr2: Word, maddr2: Word)
    ensures CopiesBlock(CopyArmed(paddr, maddr, n))
    ensures !MoveAccepted(CopyArmed(paddr, maddr, n).ccr, paddr2, maddr2)
  {
    var r := CopyArmed(paddr, maddr, n);
    assert r.ccr & DMA_CCR_PINC != 0 && r.ccr & DMA_CCR_MINC != 0;
    assert SourceAddresses(r) == Block(paddr, n);
    assert DestinationAddresses(r) == Block(maddr, n);
  }

  // ---------------------------------------------------------------------------
  // DMA_WaitFreeChannel

  /**
   * Whether DMA_WaitFreeChannel as written stops waiting in the state
   * (`ccr`, `isr`): at once when EN is clear, and otherwise when its loop
   * condition, the channel's TCIF flag, reads false.
   */
  predicate WaitEnds(ccr: bv32, isr: set<bv5>, ch: Word): (ends: bool)
    ensures ccr & DMA_CCR_EN == 0 ==> ends
    ensures GetChannelIndex(ch) == NO_CHANNEL ==> ends
    ensures isr == {} ==> ends
  {
    ccr & DMA_CCR_EN == 0 || !CheckInterrupts(isr, ch, {TCIF})
  }

  /** Whether a channel is free: disabled, or its transfer complete (TCIF set). */
  predicate ChannelFree(ccr: bv32, isr: set<bv5>, ch: Word)
  {
    ccr & DMA_CCR_EN == 0 || CheckInterrupts(isr, ch, {TCIF})
  }

  /**
   * For an enabled channel the wait as written is inverted: it returns while
   * the transfer is still running and holds the caller once it has completed.
   */
  lemma WaitEndsWhileBusy(ccr: bv32, isr: set<bv5>, i: bv32)
    requires i < CHANNEL_COUNT && ccr & DMA_CCR_EN != 0
    ensures WaitEnds(ccr, isr, ChannelBase(i)) <==> !ChannelFree(ccr, isr, ChannelBase(i))
    ensures WaitEnds(ccr, isr, ChannelBase(i)) <==> 4 * (i as bv5) + TCIF !in isr
  {
    TcifOfChannel(isr, i);
  }

  /** The wait as documented ends exactly when the channel is disabled or its own transfer-complete flag is set. */
  lemma ChannelFreeReadsTcif(ccr: bv32, isr: set<bv5>, i: bv32)
    requires i < CHANNEL_COUNT
    ensures ChannelFree(ccr, isr, ChannelBase(i)) <==> ccr & DMA_CCR_EN == 0 || 4 * (i as bv5) + TCIF in isr
  {
    TcifOfChannel(isr, i);
  }

  /** Checking TCIF of channel i reads bit 4i+1 of ISR. */
  lemma TcifOfChannel(isr: set<bv5>, i: bv32)
    requires i < CHANNEL_COUNT
    ensures CheckInterrupts(isr, ChannelBase(i), {TCIF}) <==> 4 * (i as bv5) + TCIF in isr
  {
    CheckReadsOwnGroup(isr, i, {TCIF});
    var n := 4 * (i as bv5) + TCIF;
    assert n / 4 == i as bv5 && n % 4 == TCIF;
  }
}
