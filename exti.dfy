/**
 * External interrupt lines of the I/O driver.  The four AFIO->EXTICR words
 * hold, four bits per line, the index of the port whose pin n drives EXTI
 * line n; the EXTI block's IMR, EMR, RTSR, FTSR and PR registers hold one
 * bit per line, and the driver only ever changes one bit of them at a time,
 * so each is modelled by the set of its 1-bits (see Bits.Ones).
 *
 * The NVIC calls the driver makes when it sets up or resets a line (priority,
 * enable, disable) are not part of this model.
 */
module Exti {
  import opened Bits
  import opened Ports
  import opened IoLayout
  import opened Cpu

  /** The four-bit port selector of one line in EXTICR. */
  const IO_MASK_EXTI: bv32 := 0x0000_000F

  /** The position of AFIOEN, the APB2ENR bit that clocks the AFIO block. */
  const RCC_APB2ENR_AFIOEN_BIT: bv5 := 0

  /** The interrupt numbers of the EXTI lines on the STM32F103xB. */
  const EXTI0_IRQn: int := 6
  const EXTI1_IRQn: int := 7
  const EXTI2_IRQn: int := 8
  const EXTI3_IRQn: int := 9
  const EXTI4_IRQn: int := 10
  const EXTI9_5_IRQn: int := 23
  const EXTI15_10_IRQn: int := 40

  /** IO_GetIrqNumber: lines 0 to 4 have their own interrupt, lines 5 to 9 share one, and every other value gets the 10-15 one. */
  function GetIrqNumber(pin: Word): (irq: int)
    ensures pin < 5 ==> irq == EXTI0_IRQn + pin
    ensures 5 <= pin <= 9 <==> irq == EXTI9_5_IRQn
    ensures pin > 9 <==> irq == EXTI15_10_IRQn
  {
    if pin == 0 then EXTI0_IRQn
    else if pin == 1 then EXTI1_IRQn
    else if pin == 2 then EXTI2_IRQn
    else if pin == 3 then EXTI3_IRQn
    else if pin == 4 then EXTI4_IRQn
    else if pin == 5 || pin == 6 || pin == 7 || pin == 8 || pin == 9 then EXTI9_5_IRQn
    else EXTI15_10_IRQn
  }

  // ---------------------------------------------------------------------------
  // Port selection in AFIO->EXTICR

  /** The port selector of line `pin`: field pin%4 of word pin/4. */
  function Selector(exticr: seq<bv32>, pin: bv32): (port: bv32)
    requires |exticr| == 4 && pin < 16
    ensures port < 16
  {
    Nibble(exticr[pin / 4], (pin % 4) as bv5)
  }

  /** IO_GetExtendedIT: the port selected for line `pin` in the second byte, the line number in the first. */
  function GetExtendedIT(exticr: seq<bv32>, pin: bv32): (code: bv32)
    requires |exticr| == 4 && pin < 16
    ensures code >> 8 == Selector(exticr, pin)
    ensures code & 0xFF == pin
  {
    var result := Nibble(exticr[pin / 4], (pin % 4) as bv5);
    LineCode(result, pin);
    (result << 8) | (pin & IO_MASK_EXTI)
  }

  /** Packing a four-bit selector above a four-bit line number keeps both. */
  lemma LineCode(selector: bv32, pin: bv32)
    requires selector < 16 && pin < 16
    ensures ((selector << 8) | (pin & IO_MASK_EXTI)) >> 8 == selector
    ensures ((selector << 8) | (pin & IO_MASK_EXTI)) & 0xFF == pin
  {
  }

  /** EXTICR after IO_SetExtendedIT routes line `pin` to port `index`: field pin%4 of word pin/4 cleared, then `index` OR-ed in. */
  function Routed(exticr: seq<bv32>, pin: bv32, index: bv32): seq<bv32>
    requires |exticr| == 4 && pin < 16
  {
    exticr[pin / 4 := WithNibble(exticr[pin / 4], (pin % 4) as bv5, index)]
  }

  /** After routing line `pin` to a port index below 16, the line reads back that port and its own number. */
  lemma RoutedReadsBack(exticr: seq<bv32>, pin: bv32, index: bv32)
    requires |exticr| == 4 && pin < 16 && index < 16
    ensures Selector(Routed(exticr, pin, index), pin) == index
    ensures GetExtendedIT(Routed(exticr, pin, index), pin) == (index << 8) | pin
  {
    WithNibbleSets(exticr[pin / 4], (pin % 4) as bv5, index);
  }

  /** Routing one line leaves the port selector of every other line as it was. */
  lemma RoutedKeepsOtherLines(exticr: seq<bv32>, pin: bv32, other: bv32, index: bv32)
    requires |exticr| == 4 && pin < 16 && other < 16 && other != pin && index < 16
    ensures Selector(Routed(exticr, pin, index), other) == Selector(exticr, other)
  {
    if other / 4 == pin / 4 {
      WithNibbleKeeps(exticr[pin / 4], (pin % 4) as bv5, (other % 4) as bv5, index);
    }
  }

  /** Routing a line to a second port evicts the first: the result is as if only the second routing had happened. */
  lemma RoutingEvicts(exticr: seq<bv32>, pin: bv32, first: bv32, second: bv32)
    requires |exticr| == 4 && pin < 16 && first < 16
    ensures Routed(Routed(exticr, pin, first), pin, second) == Routed(exticr, pin, second)
  {
    WithNibbleTwice(exticr[pin / 4], (pin % 4) as bv5, first, second);
  }

  // ---------------------------------------------------------------------------
  // The EXTI line registers

  /**
   * The line bit `(uint16_t)(1 << pin)`: bit `pin` for lines 0 to 15; the
   * cast to 16 bits leaves no bit for larger pin numbers.
   */
  function LineBits(pin: bv8): set<bv5>
  {
    if pin < 16 then {pin as bv5} else {}
  }

  /** LineBits is the set of 1-bits of the mask the driver writes, for every pin number the shift is defined for. */
  lemma LineBitsOfMask(pin: bv8)
    requires pin < 32
    ensures Ones(Bit(pin as bv5) & 0xFFFF, LineBits(pin))
  {
    forall n: bv5 ensures n in LineBits(pin) <==> (Bit(pin as bv5) & 0xFFFF) & Bit(n) != 0 {
      assert (Bit(pin as bv5) & 0xFFFF) & Bit(n) != 0 <==> (pin < 16 && n == pin as bv5);
    }
  }

  /** The 1-bits of EXTI->IMR, EMR, RTSR, FTSR and PR. */
  datatype ExtiRegs = ExtiRegs(imr: set<bv5>, emr: set<bv5>, rtsr: set<bv5>, ftsr: set<bv5>, pr: set<bv5>)

  /** The five register bits of line `n`: interrupt request enabled (IMR), event enabled (EMR), rising and falling trigger, pending. */
  datatype LineState = LineState(interrupt: bool, event: bool, rising: bool, falling: bool, pending: bool)

  function LineOf(e: ExtiRegs, n: bv5): LineState
  {
    LineState(n in e.imr, n in e.emr, n in e.rtsr, n in e.ftsr, n in e.pr)
  }

  /** `if (flag) REG |= bit; else REG &= ~bit;` */
  function Follow(r: set<bv5>, bits: set<bv5>, on: bool): set<bv5>
  {
    if on then r + bits else r - bits
  }

  /** The registers after IO_SetExtendedIT: the line unmasked in IMR, its RTSR and FTSR bits following Rise and Fall. */
  function Armed(e: ExtiRegs, c: IoConfig): ExtiRegs
  {
    var bits := LineBits(c.pin);
    e.(imr := e.imr + bits, rtsr := Follow(e.rtsr, bits, c.rise), ftsr := Follow(e.ftsr, bits, c.fall))
  }

  /** The registers after IO_ResetExtendedIT: the line's IMR, EMR, RTSR and FTSR bits cleared. */
  function Released(e: ExtiRegs, pin: bv8): ExtiRegs
  {
    var bits := LineBits(pin);
    e.(imr := e.imr - bits, emr := e.emr - bits, rtsr := e.rtsr - bits, ftsr := e.ftsr - bits)
  }

  /** The registers after IO_MaskExtendedIT. */
  function Masked(e: ExtiRegs, pin: bv8): ExtiRegs
  {
    e.(imr := e.imr - LineBits(pin))
  }

  /** The registers after IO_UnmaskExtendedIT. */
  function Unmasked(e: ExtiRegs, pin: bv8): ExtiRegs
  {
    e.(imr := e.imr + LineBits(pin))
  }

  /** The registers after IO_ClearPendingExtendedIT, which ORs the line bit into PR. */
  function PendingCleared(e: ExtiRegs, pin: bv8): ExtiRegs
  {
    e.(pr := e.pr + LineBits(pin))
  }

  /** Setting up line `pin` enables it in IMR, makes RTSR follow Rise and FTSR follow Fall, and touches no other line. */
  lemma ArmedLine(e: ExtiRegs, c: IoConfig)
    requires c.pin < 16
    ensures LineOf(Armed(e, c), c.pin as bv5)
         == LineState(true, c.pin as bv5 in e.emr, c.rise, c.fall, c.pin as bv5 in e.pr)
    ensures forall n: bv5 :: n != c.pin as bv5 ==> LineOf(Armed(e, c), n) == LineOf(e, n)
  {
  }

  /** Resetting line `pin` clears its IMR, EMR, RTSR and FTSR bits, keeps PR, and touches no other line. */
  lemma ReleasedLine(e: ExtiRegs, pin: bv8)
    requires pin < 16
    ensures LineOf(Released(e, pin), pin as bv5) == LineState(false, false, false, false, pin as bv5 in e.pr)
    ensures forall n: bv5 :: n != pin as bv5 ==> LineOf(Released(e, pin), n) == LineOf(e, n)
  {
  }

  /** Resetting a line after setting it up leaves the EXTI registers as resetting it alone would. */
  lemma ReleaseUndoesArm(e: ExtiRegs, c: IoConfig)
    ensures Released(Armed(e, c), c.pin) == Released(e, c.pin)
  {
    var bits := LineBits(c.pin);
    assert (e.imr + bits) - bits == e.imr - bits;
    assert Follow(e.rtsr, bits, c.rise) - bits == e.rtsr - bits;
    assert Follow(e.ftsr, bits, c.fall) - bits == e.ftsr - bits;
  }

  /** Unmasking after masking restores IMR when the line was unmasked before. */
  lemma UnmaskUndoesMask(e: ExtiRegs, pin: bv8)
    requires LineBits(pin) <= e.imr
    ensures Unmasked(Masked(e, pin), pin) == e
  {
    assert (e.imr - LineBits(pin)) + LineBits(pin) == e.imr;
  }

  /** Mask, unmask and clear-pending change only their own register's bit of their own line. */
  lemma LineWritesTouchOneBit(e: ExtiRegs, pin: bv8, n: bv5)
    requires n !in LineBits(pin)
    ensures LineOf(Masked(e, pin), n) == LineOf(e, n)
    ensures LineOf(Unmasked(e, pin), n) == LineOf(e, n)
    ensures LineOf(PendingCleared(e, pin), n) == LineOf(e, n)
    ensures (Masked(e, pin).imr - e.imr) + (e.imr - Masked(e, pin).imr) <= LineBits(pin)
  {
  }

  /** A pin number of 16 or more names no line: the line operations then change nothing. */
  lemma HighPinsNameNoLine(e: ExtiRegs, c: IoConfig)
    requires c.pin >= 16
    ensures Armed(e, c) == e && Released(e, c.pin) == e
    ensures Masked(e, c.pin) == e && Unmasked(e, c.pin) == e && PendingCleared(e, c.pin) == e
  {
    assert LineBits(c.pin) == {};
    assert e.imr + {} == e.imr && e.imr - {} == e.imr && e.pr + {} == e.pr;
    assert e.rtsr + {} == e.rtsr && e.rtsr - {} == e.rtsr && e.ftsr + {} == e.ftsr && e.ftsr - {} == e.ftsr;
    assert e.emr - {} == e.emr;
  }

  /** The AFIO block's four EXTICR registers. */
  class Afio {
    const exticr: array<bv32>

    /** An AFIO block whose EXTICR registers hold `selectors`. */
    constructor(selectors: seq<bv32>)
      requires |selectors| == 4
      ensures exticr.Length == 4 && exticr[..] == selectors
      ensures fresh(exticr)
    {
      exticr := new bv32[4](i requires 0 <= i < 4 => selectors[i]);
    }

    /** `EXTICR[pin/4] &= ~(0xF << 4*(pin%4)); EXTICR[pin/4] |= index << 4*(pin%4);` */
    method Route(pin: bv32, index: bv32)
      requires exticr.Length == 4 && pin < 16
      modifies exticr
      ensures exticr[..] == Routed(old(exticr[..]), pin, index)
    {
      var k := (pin % 4) as bv5;
      var w := exticr[pin / 4];
      w := ClearNibble(w, k);
      w := OrNibble(w, k, index);
      exticr[pin / 4] := w;
    }
  }

  /** The EXTI block's line registers. */
  class ExtiLines {
    var imr: set<bv5>
    var emr: set<bv5>
    var rtsr: set<bv5>
    var ftsr: set<bv5>
    var pr: set<bv5>

    function Regs(): ExtiRegs
      reads this
    {
      ExtiRegs(imr, emr, rtsr, ftsr, pr)
    }

    /** An EXTI block whose registers hold `e`. */
    constructor(e: ExtiRegs)
      ensures Regs() == e
    {
      imr, emr, rtsr, ftsr, pr := e.imr, e.emr, e.rtsr, e.ftsr, e.pr;
    }

    /** The EXTI writes of IO_SetExtendedIT: IMR bit set, RTSR and FTSR bits set or cleared by Rise and Fall. */
    method Arm(config: IoConfig)
      modifies this
      ensures Regs() == Armed(old(Regs()), config)
    {
      var bits := LineBits(config.pin);
      imr := imr + bits;
      if config.rise {
        rtsr := rtsr + bits;
      } else {
        rtsr := rtsr - bits;
      }
      if config.fall {
        ftsr := ftsr + bits;
      } else {
        ftsr := ftsr - bits;
      }
    }

    /** IO_ResetExtendedIT, apart from its NVIC call. */
    method ResetExtendedIT(config: IoConfig)
      modifies this
      ensures Regs() == Released(old(Regs()), config.pin)
    {
      var bits := LineBits(config.pin);
      imr := imr - bits;
      emr := emr - bits;
      rtsr := rtsr - bits;
      ftsr := ftsr - bits;
    }

    /** IO_MaskExtendedIT. */
    method MaskExtendedIT(config: IoConfig)
      modifies this
      ensures Regs() == Masked(old(Regs()), config.pin)
    {
      imr := imr - LineBits(config.pin);
    }

    /** IO_UnmaskExtendedIT. */
    method UnmaskExtendedIT(config: IoConfig)
      modifies this
      ensures Regs() == Unmasked(old(Regs()), config.pin)
    {
      imr := imr + LineBits(config.pin);
    }

    /** IO_ClearPendingExtendedIT. */
    method ClearPendingExtendedIT(config: IoConfig)
      modifies this
      ensures Regs() == PendingCleared(old(Regs()), config.pin)
    {
      pr := pr + LineBits(config.pin);
    }
  }

  /**
   * IO_SetExtendedIT, apart from its NVIC calls: clock the AFIO block, route
   * line `pin` to the port at address `port`, unmask the line and set its
   * edge triggers.  EXTICR has four words, so the line must be below 16.
   */
  method SetExtendedIT(rcc: ClockControl, afio: Afio, exti: ExtiLines, port: Word, config: IoConfig)
    requires afio.exticr.Length == 4 && config.pin < 16
    modifies rcc, afio.exticr, exti
    ensures rcc.apb2enr == old(rcc.apb2enr) + {RCC_APB2ENR_AFIOEN_BIT}
    ensures rcc.cr == old(rcc.cr) && rcc.cfgr == old(rcc.cfgr) && rcc.acr == old(rcc.acr)
    ensures rcc.apb1enr == old(rcc.apb1enr) && rcc.ahbenr == old(rcc.ahbenr)
    ensures afio.exticr[..] == Routed(old(afio.exticr[..]), config.pin as bv32, GetPortIndex(port) as bv32)
    ensures exti.Regs() == Armed(old(exti.Regs()), config)
  {
    rcc.apb2enr := rcc.apb2enr + {RCC_APB2ENR_AFIOEN_BIT};
    afio.Route(config.pin as bv32, GetPortIndex(port) as bv32);
    exti.Arm(config);
  }
}
