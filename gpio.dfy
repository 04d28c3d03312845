/**
 * GPIO ports as the I/O driver configures them: turning on a port's clock,
 * and placing a pin's mode in the port configuration registers.  Each port
 * has two configuration registers, CRL for pins 0 to 7 and CRH for pins 8 to
 * 15, with one four-bit CNF:MODE field per pin (RM0008, section 9.2), and an
 * output data register ODR whose bit n, for a pin in pull-up/pull-down input
 * mode, chooses pull-up (1) or pull-down (0).  The driver changes ODR one bit
 * at a time, so it is modelled by the set of its 1-bits.
 */
module Gpio {
  import opened Bits
  import opened Optional
  import opened Ports
  import opened IoLayout
  import opened Exti
  import opened Cpu

  /** The APB2ENR bits that clock ports A to E (IOPAEN to IOPEEN). */
  const RCC_APB2ENR_IOPAEN_BIT: bv5 := 2
  const RCC_APB2ENR_IOPBEN_BIT: bv5 := 3
  const RCC_APB2ENR_IOPCEN_BIT: bv5 := 4
  const RCC_APB2ENR_IOPDEN_BIT: bv5 := 5
  const RCC_APB2ENR_IOPEEN_BIT: bv5 := 6

  /** The switch of IO_PortClockOn: the APB2ENR bit of port index `k`; the device has ports A to E only. */
  function PortGate(k: Word): Option<bv5>
  {
    if k == 0 then Some(RCC_APB2ENR_IOPAEN_BIT)
    else if k == 1 then Some(RCC_APB2ENR_IOPBEN_BIT)
    else if k == 2 then Some(RCC_APB2ENR_IOPCEN_BIT)
    else if k == 3 then Some(RCC_APB2ENR_IOPDEN_BIT)
    else if k == 4 then Some(RCC_APB2ENR_IOPEEN_BIT)
    else None
  }

  /** Port indices 0 to 4 have a clock bit, and it is bit k + 2 of APB2ENR. */
  lemma PortGateIsIopBit(k: Word)
    ensures PortGate(k).Some? <==> k < 5
    ensures k < 5 ==> PortGate(k).value as int == k + 2
  {
  }

  /** The bits a `REG |= bit` sets when there is a bit to set. */
  function GateBits(g: Option<bv5>): set<bv5>
  {
    if g.Some? then {g.value} else {}
  }

  /**
   * The APB2ENR bits IO_PortClockEnable(p) sets: it computes the port index
   * of `p` (below 2^22, so the shift by 8 cannot wrap) and hands it to
   * IO_PortClockOn in the second byte.
   */
  function PortClockBits(address: Word): set<bv5>
  {
    GateBits(PortGate(PortField(GetPortIndex(address) * 256)))
  }

  /** Enabling the clock of the block of port k (A to E) sets exactly its IOPxEN bit; any other index sets none. */
  lemma PortClockBitsOfPort(k: Word)
    requires k < 256
    ensures k < 5 ==> PortClockBits(PortBase(k)) == {(k + 2) as bv5}
    ensures k >= 5 ==> PortClockBits(PortBase(k)) == {}
  {
    GetPortIndexOfBase(k);
    EncodedFields(k, 0);
    PortGateIsIopBit(k);
  }

  /** The port registers the driver writes: CRL, CRH and the 1-bits of ODR. */
  datatype GpioRegs = GpioRegs(crl: bv32, crh: bv32, odr: set<bv5>)

  /** The configuration register that holds the field of pin `pin`: CRL for pins 0 to 7, CRH above. */
  function ConfigRegister(g: GpioRegs, pin: bv8): bv32
  {
    if pin > 7 then g.crh else g.crl
  }

  /** The configuration register that does not hold the field of pin `pin`. */
  function OtherConfigRegister(g: GpioRegs, pin: bv8): bv32
  {
    if pin > 7 then g.crl else g.crh
  }

  /** The mode IO_PinInit writes into the CNF:MODE field: pull-up is written as pull-down, the pull direction being set in ODR. */
  function WrittenMode(m: IoMode): IoMode
  {
    if m == InPullUp then InPullDown else m
  }

  /** IO_PinInit sets up the EXTI line of a pin in range when Int is set and the mode is a digital input. */
  predicate RoutesInterrupt(c: IoConfig)
  {
    c.pin <= 15 && c.interrupt && (c.mode == InFloating || c.mode == InPullDown || c.mode == InPullUp)
  }

  /**
   * The port registers after IO_PinInit: nothing for a pin above 15;
   * otherwise the pin's field in CRL or CRH holds the written mode, and ODR
   * bit `pin` is set for pull-up and cleared for every other mode.
   */
  function PinWritten(g: GpioRegs, c: IoConfig): GpioRegs
  {
    if c.pin > 15 then g
    else
      var bit := c.pin as bv5;
      var odr := if c.mode == InPullUp then (g.odr - {bit}) + {bit} else g.odr - {bit};
      ModeWritten(g, c.pin, ModeCode(WrittenMode(c.mode)) as bv32).(odr := odr)
  }

  /** CRL or CRH with field pin%8 set to `mode`: `*MODER &= ~(IO_MASK_MODE << offset); *MODER |= mode << offset`. */
  function ModeWritten(g: GpioRegs, pin: bv8, mode: bv32): GpioRegs
    requires pin <= 15
  {
    if pin > 7 then g.(crh := WithNibble(g.crh, (pin - 8) as bv5, mode))
    else g.(crl := WithNibble(g.crl, pin as bv5, mode))
  }

  /** Field pin%8 of the pin's configuration register holds the written mode; its other fields and the other register keep their value. */
  lemma PinWrittenPlacesMode(g: GpioRegs, c: IoConfig)
    requires c.pin <= 15
    ensures Nibble(ConfigRegister(PinWritten(g, c), c.pin), (c.pin % 8) as bv5) == ModeCode(WrittenMode(c.mode)) as bv32
    ensures forall j: bv5 :: j < 8 && j != (c.pin % 8) as bv5 ==>
              Nibble(ConfigRegister(PinWritten(g, c), c.pin), j) == Nibble(ConfigRegister(g, c.pin), j)
    ensures OtherConfigRegister(PinWritten(g, c), c.pin) == OtherConfigRegister(g, c.pin)
  {
    var k := (c.pin % 8) as bv5;
    var mode := ModeCode(WrittenMode(c.mode)) as bv32;
    var w := ConfigRegister(g, c.pin);
    assert ConfigRegister(PinWritten(g, c), c.pin) == WithNibble(w, k, mode);
    WithNibbleSets(w, k, mode);
    forall j: bv5 | j < 8 && j != k
      ensures Nibble(WithNibble(w, k, mode), j) == Nibble(w, j)
    {
      WithNibbleKeeps(w, k, j, mode);
    }
  }

  /** ODR bit `pin` ends up set for pull-up and clear for every other mode; no other ODR bit changes. */
  lemma PinWrittenDrivesOdr(g: GpioRegs, c: IoConfig)
    requires c.pin <= 15
    ensures c.pin as bv5 in PinWritten(g, c).odr <==> c.mode == InPullUp
    ensures forall n: bv5 :: n != c.pin as bv5 ==> (n in PinWritten(g, c).odr <==> n in g.odr)
  {
  }

  /** Pull-up is written exactly as pull-down, with ODR bit `pin` set in addition. */
  lemma PullUpIsPullDownWithOdr(g: GpioRegs, c: IoConfig)
    requires c.pin <= 15 && c.mode == InPullUp
    ensures PinWritten(g, c)
         == PinWritten(g, c.(mode := InPullDown)).(odr := PinWritten(g, c.(mode := InPullDown)).odr + {c.pin as bv5})
  {
  }

  /** Only floating, pull-down and pull-up inputs take an EXTI line: analog input and every output and alternate mode do not. */
  lemma InterruptsOnlyForDigitalInputs(c: IoConfig)
    ensures RoutesInterrupt(c) ==> IsInput(c.mode) && c.mode != InAnalog
    ensures RoutesInterrupt(c) <==> c.pin <= 15 && c.interrupt && ModeCode(c.mode) & 3 == 0 && c.mode != InAnalog
  {
    InputModesHaveZeroModeBits(c.mode);
  }

  /** A GPIO port's register block. */
  class GpioPort {
    /** The block's base address, which the driver passes as the port handle. */
    const address: Word
    var crl: bv32
    var crh: bv32
    var odr: set<bv5>

    function Regs(): GpioRegs
      reads this
    {
      GpioRegs(crl, crh, odr)
    }

    /** The port at `address` with registers `regs`. */
    constructor(address: Word, regs: GpioRegs)
      ensures this.address == address && Regs() == regs
    {
      this.address := address;
      crl, crh, odr := regs.crl, regs.crh, regs.odr;
    }

    /**
     * The register writes of IO_PinInit for a pin in range: ODR bit `pin`,
     * then the Mode field, as PinWritten describes.  The driver clears the
     * field before it writes ODR and sets it after; nothing reads the port
     * in between, so the two halves are made together by WriteMode.
     */
    method WritePin(config: IoConfig)
      requires config.pin <= 15
      modifies this
      ensures Regs() == PinWritten(old(Regs()), config)
    {
      var mode := config.mode;
      odr := odr - {config.pin as bv5};
      if config.mode == InPullUp {
        mode := InPullDown;
        odr := odr + {config.pin as bv5};
      }
      WriteMode(config.pin, ModeCode(mode) as bv32);
    }

    /** `*MODER &= ~(IO_MASK_MODE << offset); *MODER |= mode << offset` on CRL for pins 0 to 7 and on CRH for pins 8 to 15. */
    method WriteMode(pin: bv8, mode: bv32)
      requires pin <= 15
      modifies this
      ensures Regs() == ModeWritten(old(Regs()), pin, mode)
    {
      var moder: bv32;
      var k: bv5;
      if pin > 7 {
        moder, k := crh, (pin - 8) as bv5;
      } else {
        moder, k := crl, pin as bv5;
      }
      moder := ClearNibble(moder, k);
      moder := OrNibble(moder, k, mode);
      if pin > 7 {
        crh := moder;
      } else {
        crl := moder;
      }
    }
  }

  /** IO_PortClockOn: sets the clock bit of the port whose index is in the second byte of `portindex` and returns its address, or 0 for an unknown port. */
  method PortClockOn(rcc: ClockControl, portindex: Word) returns (port: Word)
    modifies rcc
    ensures rcc.apb2enr == old(rcc.apb2enr) + GateBits(PortGate(PortField(portindex)))
    ensures port == if PortGate(PortField(portindex)).Some? then GetPort(portindex) else 0
    ensures rcc.cr == old(rcc.cr) && rcc.cfgr == old(rcc.cfgr) && rcc.acr == old(rcc.acr)
    ensures rcc.apb1enr == old(rcc.apb1enr) && rcc.ahbenr == old(rcc.ahbenr)
  {
    PortBlocks();
    var k := PortField(portindex);
    if k == 0 {
      rcc.apb2enr := rcc.apb2enr + {RCC_APB2ENR_IOPAEN_BIT};
      port := GPIOA;
    } else if k == 1 {
      rcc.apb2enr := rcc.apb2enr + {RCC_APB2ENR_IOPBEN_BIT};
      port := GPIOB;
    } else if k == 2 {
      rcc.apb2enr := rcc.apb2enr + {RCC_APB2ENR_IOPCEN_BIT};
      port := GPIOC;
    } else if k == 3 {
      rcc.apb2enr := rcc.apb2enr + {RCC_APB2ENR_IOPDEN_BIT};
      port := GPIOD;
    } else if k == 4 {
      rcc.apb2enr := rcc.apb2enr + {RCC_APB2ENR_IOPEEN_BIT};
      port := GPIOE;
    } else {
      port := 0;
    }
  }

  /** IO_PortClockEnable: turns on the clock of the port at `address`. */
  method PortClockEnable(rcc: ClockControl, address: Word)
    modifies rcc
    ensures rcc.apb2enr == old(rcc.apb2enr) + PortClockBits(address)
    ensures rcc.cr == old(rcc.cr) && rcc.cfgr == old(rcc.cfgr) && rcc.acr == old(rcc.acr)
    ensures rcc.apb1enr == old(rcc.apb1enr) && rcc.ahbenr == old(rcc.ahbenr)
  {
    var result := GetPortIndex(address);
    var _ := PortClockOn(rcc, result * 256);
  }

  /**
   * IO_PinInit: clock the port; for a pin above 15 stop there; otherwise
   * write the pin's mode field and ODR bit, and set up its EXTI line when the
   * configuration asks for interrupts on a digital input.
   */
  method PinInit(rcc: ClockControl, port: GpioPort, afio: Afio, exti: ExtiLines, config: IoConfig)
    requires afio.exticr.Length == 4
    modifies rcc, port, afio.exticr, exti
    ensures port.Regs() == PinWritten(old(port.Regs()), config)
    ensures rcc.apb2enr == old(rcc.apb2enr) + PortClockBits(port.address)
                           + (if RoutesInterrupt(config) then {RCC_APB2ENR_AFIOEN_BIT} else {})
    ensures rcc.cr == old(rcc.cr) && rcc.cfgr == old(rcc.cfgr) && rcc.acr == old(rcc.acr)
    ensures rcc.apb1enr == old(rcc.apb1enr) && rcc.ahbenr == old(rcc.ahbenr)
    ensures RoutesInterrupt(config) ==>
              afio.exticr[..] == Routed(old(afio.exticr[..]), config.pin as bv32, GetPortIndex(port.address) as bv32)
              && exti.Regs() == Armed(old(exti.Regs()), config)
    ensures !RoutesInterrupt(config) ==> afio.exticr[..] == old(afio.exticr[..]) && exti.Regs() == old(exti.Regs())
  {
    PortClockEnable(rcc, port.address);
    var pin := config.pin;
    if pin > 15 {
      return;
    }
    port.WritePin(config);
    if config.interrupt && (config.mode == InFloating || config.mode == InPullDown || config.mode == InPullUp) {
      SetExtendedIT(rcc, afio, exti, port.address, config);
    }
  }
}
