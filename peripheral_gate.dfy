/**
 * The peripheral clock gates of the CPU driver: which peripheral handles the
 * enable, disable and status chains recognise on an STM32F103xB, and which
 * bit of APB1ENR, APB2ENR or AHBENR each one names.  The three chains compare
 * the handle against the same peripheral base addresses in the same order, so
 * the mapping is defined once here.
 */
module PeripheralGate {
  import opened Optional
  import opened EnableRegisters

  /** The peripherals the chains recognise when the STM32F103xB header is in use. */
  datatype Peripheral =
    | Tim2 | Tim3 | Tim4 | Wwdg | Spi2 | Usart2 | Usart3 | I2c1 | I2c2 | Can1 | Bkp | Pwr | Usb
    | Afio | GpioA | GpioB | GpioC | GpioD | GpioE | Adc1 | Adc2 | Tim1 | Spi1 | Usart1
    | Dma1 | Crc

  /** The memory-mapped base address that is the peripheral's handle. */
  function BaseAddress(p: Peripheral): nat
  {
    match p
    case Tim2 => 0x4000_0000
    case Tim3 => 0x4000_0400
    case Tim4 => 0x4000_0800
    case Wwdg => 0x4000_2C00
    case Spi2 => 0x4000_3800
    case Usart2 => 0x4000_4400
    case Usart3 => 0x4000_4800
    case I2c1 => 0x4000_5400
    case I2c2 => 0x4000_5800
    case Usb => 0x4000_5C00
    case Can1 => 0x4000_6400
    case Bkp => 0x4000_6C00
    case Pwr => 0x4000_7000
    case Afio => 0x4001_0000
    case GpioA => 0x4001_0800
    case GpioB => 0x4001_0C00
    case GpioC => 0x4001_1000
    case GpioD => 0x4001_1400
    case GpioE => 0x4001_1800
    case Adc1 => 0x4001_2400
    case Adc2 => 0x4001_2800
    case Tim1 => 0x4001_2C00
    case Spi1 => 0x4001_3000
    case Usart1 => 0x4001_3800
    case Dma1 => 0x4002_0000
    case Crc => 0x4002_3000
  }

  /**
   * The if-else chain shared by the three gate functions: the first
   * peripheral whose base address equals the handle, or None.
   */
  function PeripheralAt(handle: nat): (found: Option<Peripheral>)
    ensures found.Some? ==> BaseAddress(found.value) == handle
  {
    if handle == 0x4000_0000 then Some(Tim2)
    else if handle == 0x4000_0400 then Some(Tim3)
    else if handle == 0x4000_0800 then Some(Tim4)
    else if handle == 0x4000_2C00 then Some(Wwdg)
    else if handle == 0x4000_3800 then Some(Spi2)
    else if handle == 0x4000_4400 then Some(Usart2)
    else if handle == 0x4000_4800 then Some(Usart3)
    else if handle == 0x4000_5400 then Some(I2c1)
    else if handle == 0x4000_5800 then Some(I2c2)
    else if handle == 0x4000_6400 then Some(Can1)
    else if handle == 0x4000_6C00 then Some(Bkp)
    else if handle == 0x4000_7000 then Some(Pwr)
    else if handle == 0x4000_5C00 then Some(Usb)
    else if handle == 0x4001_0000 then Some(Afio)
    else if handle == 0x4001_0800 then Some(GpioA)
    else if handle == 0x4001_0C00 then Some(GpioB)
    else if handle == 0x4001_1000 then Some(GpioC)
    else if handle == 0x4001_1400 then Some(GpioD)
    else if handle == 0x4001_1800 then Some(GpioE)
    else if handle == 0x4001_2400 then Some(Adc1)
    else if handle == 0x4001_2800 then Some(Adc2)
    else if handle == 0x4001_2C00 then Some(Tim1)
    else if handle == 0x4001_3000 then Some(Spi1)
    else if handle == 0x4001_3800 then Some(Usart1)
    else if handle == 0x4002_0000 then Some(Dma1)
    else if handle == 0x4002_3000 then Some(Crc)
    else None
  }

  /** The gate each chain touches for a peripheral (RCC_APB1ENR_TIM2EN is bit 0 of APB1ENR, and so on). */
  function GateOf(p: Peripheral): Gate
  {
    match p
    case Tim2 => Gate(Apb1, 0)
    case Tim3 => Gate(Apb1, 1)
    case Tim4 => Gate(Apb1, 2)
    case Wwdg => Gate(Apb1, 11)
    case Spi2 => Gate(Apb1, 14)
    case Usart2 => Gate(Apb1, 17)
    case Usart3 => Gate(Apb1, 18)
    case I2c1 => Gate(Apb1, 21)
    case I2c2 => Gate(Apb1, 22)
    case Usb => Gate(Apb1, 23)
    case Can1 => Gate(Apb1, 25)
    case Bkp => Gate(Apb1, 27)
    case Pwr => Gate(Apb1, 28)
    case Afio => Gate(Apb2, 0)
    case GpioA => Gate(Apb2, 2)
    case GpioB => Gate(Apb2, 3)
    case GpioC => Gate(Apb2, 4)
    case GpioD => Gate(Apb2, 5)
    case GpioE => Gate(Apb2, 6)
    case Adc1 => Gate(Apb2, 9)
    case Adc2 => Gate(Apb2, 10)
    case Tim1 => Gate(Apb2, 11)
    case Spi1 => Gate(Apb2, 12)
    case Usart1 => Gate(Apb2, 14)
    case Dma1 => Gate(Ahb, 0)
    case Crc => Gate(Ahb, 6)
  }

  /** The peripheral that owns a gate, if any: the inverse of GateOf. */
  function GateOwner(g: Gate): Option<Peripheral>
  {
    match g.reg
    case Apb1 =>
      if g.bit == 0 then Some(Tim2) else if g.bit == 1 then Some(Tim3) else if g.bit == 2 then Some(Tim4)
      else if g.bit == 11 then Some(Wwdg) else if g.bit == 14 then Some(Spi2)
      else if g.bit == 17 then Some(Usart2) else if g.bit == 18 then Some(Usart3)
      else if g.bit == 21 then Some(I2c1) else if g.bit == 22 then Some(I2c2)
      else if g.bit == 23 then Some(Usb) else if g.bit == 25 then Some(Can1)
      else if g.bit == 27 then Some(Bkp) else if g.bit == 28 then Some(Pwr) else None
    case Apb2 =>
      if g.bit == 0 then Some(Afio) else if g.bit == 2 then Some(GpioA) else if g.bit == 3 then Some(GpioB)
      else if g.bit == 4 then Some(GpioC) else if g.bit == 5 then Some(GpioD) else if g.bit == 6 then Some(GpioE)
      else if g.bit == 9 then Some(Adc1) else if g.bit == 10 then Some(Adc2) else if g.bit == 11 then Some(Tim1)
      else if g.bit == 12 then Some(Spi1) else if g.bit == 14 then Some(Usart1) else None
    case Ahb =>
      if g.bit == 0 then Some(Dma1) else if g.bit == 6 then Some(Crc) else None
  }

  /** Every recognised handle leads back to its peripheral: the chain finds each base address. */
  lemma HandleRoundTrip(p: Peripheral)
    ensures PeripheralAt(BaseAddress(p)) == Some(p)
  {
  }

  /** GateOwner undoes GateOf. */
  lemma GateOwnerInvertsGateOf(p: Peripheral)
    ensures GateOwner(GateOf(p)) == Some(p)
  {
  }

  /** No two peripherals share a gate. */
  lemma {:induction false} GatesDistinct(p: Peripheral, q: Peripheral)
    ensures GateOf(p) == GateOf(q) <==> p == q
  {
    GateOwnerInvertsGateOf(p);
    GateOwnerInvertsGateOf(q);
  }

  /** A handle the chain does not recognise is the base address of no peripheral. */
  lemma UnknownHandle(handle: nat, p: Peripheral)
    requires PeripheralAt(handle).None?
    ensures BaseAddress(p) != handle
  {
    HandleRoundTrip(p);
  }

  /** Whether the gate of `p` is open. */
  predicate GateOpen(r: EnableRegs, p: Peripheral)
  {
    Open(r, GateOf(p))
  }

  /** CPU_PeripheralClockStatus: the truth value of `REG & bit` for a recognised handle, false for any other. */
  function ClockStatus(r: EnableRegs, handle: nat): (on: bool)
    ensures on ==> PeripheralAt(handle).Some?
  {
    match PeripheralAt(handle)
    case Some(p) => GateOf(p).bit in Get(r, GateOf(p).reg)
    case None => false
  }

  /** The enable registers after CPU_PeripheralClockEnable: the recognised peripheral's bit OR-ed in, nothing written otherwise. */
  function EnableWrite(r: EnableRegs, handle: nat): (r': EnableRegs)
    ensures PeripheralAt(handle).None? ==> r' == r
  {
    match PeripheralAt(handle)
    case Some(p) => SetGate(r, GateOf(p))
    case None => r
  }

  /** The value CPU_PeripheralClockEnable returns: the truth value of the register after `|=`, false for an unknown handle. */
  function EnableResult(r: EnableRegs, handle: nat): (ok: bool)
    ensures ok <==> PeripheralAt(handle).Some?
  {
    match PeripheralAt(handle)
    case Some(p) => Get(SetGate(r, GateOf(p)), GateOf(p).reg) != {}
    case None => false
  }

  /** The enable registers after CPU_PeripheralClockDisable: the recognised peripheral's bit cleared, nothing written otherwise. */
  function DisableWrite(r: EnableRegs, handle: nat): (r': EnableRegs)
    ensures PeripheralAt(handle).None? ==> r' == r
  {
    match PeripheralAt(handle)
    case Some(p) => ClearGate(r, GateOf(p))
    case None => r
  }

  /**
   * The value CPU_PeripheralClockDisable returns as written: the truth value
   * of the register after `&= ~bit`, false for an unknown handle.
   */
  function DisableResult(r: EnableRegs, handle: nat): (ok: bool)
    ensures ok ==> PeripheralAt(handle).Some?
  {
    match PeripheralAt(handle)
    case Some(p) => Get(ClearGate(r, GateOf(p)), GateOf(p).reg) != {}
    case None => false
  }

  /**
   * The value the header promises for CPU_PeripheralClockDisable ("true if
   * success"): true exactly when the handle is recognised, which is when the
   * chain closes a gate.
   */
  function DisableSucceeded(r: EnableRegs, handle: nat): (ok: bool)
    ensures ok <==> PeripheralAt(handle).Some?
    ensures ok ==> !GateOpen(DisableWrite(r, handle), PeripheralAt(handle).value)
  {
    PeripheralAt(handle).Some?
  }

  /**
   * Disabling TIM2 when it is the only peripheral clocked on APB1 closes its
   * gate, yet the function as written returns false, because the register is
   * zero afterwards.
   */
  lemma DisableReportsFailureOnLastGate(r: EnableRegs)
    requires r.apb1 == {GateOf(Tim2).bit}
    ensures !GateOpen(DisableWrite(r, BaseAddress(Tim2)), Tim2)
    ensures !DisableResult(r, BaseAddress(Tim2))
    ensures DisableSucceeded(r, BaseAddress(Tim2))
  {
    HandleRoundTrip(Tim2);
    assert r.apb1 - {GateOf(Tim2).bit} == {};
  }

  /** Enabling a peripheral's clock opens its gate and leaves every other gate, of any register, as it was. */
  lemma EnableOpensOnlyItsGate(r: EnableRegs, p: Peripheral, h: Gate)
    ensures GateOpen(EnableWrite(r, BaseAddress(p)), p)
    ensures h != GateOf(p) ==> (Open(EnableWrite(r, BaseAddress(p)), h) <==> Open(r, h))
  {
    HandleRoundTrip(p);
  }

  /** Disabling a peripheral's clock closes its gate and leaves every other gate, of any register, as it was. */
  lemma DisableClosesOnlyItsGate(r: EnableRegs, p: Peripheral, h: Gate)
    ensures !GateOpen(DisableWrite(r, BaseAddress(p)), p)
    ensures h != GateOf(p) ==> (Open(DisableWrite(r, BaseAddress(p)), h) <==> Open(r, h))
  {
    HandleRoundTrip(p);
  }

  /** Enabling or disabling one peripheral leaves the status of every other peripheral as it was. */
  lemma OtherPeripheralsUnaffected(r: EnableRegs, p: Peripheral, q: Peripheral)
    requires q != p
    ensures ClockStatus(EnableWrite(r, BaseAddress(p)), BaseAddress(q)) == ClockStatus(r, BaseAddress(q))
    ensures ClockStatus(DisableWrite(r, BaseAddress(p)), BaseAddress(q)) == ClockStatus(r, BaseAddress(q))
  {
    GatesDistinct(p, q);
    HandleRoundTrip(p);
    HandleRoundTrip(q);
  }

  /** The status chain reads back what the enable and disable chains wrote, through the same mapping. */
  lemma StatusReadsBackGate(r: EnableRegs, p: Peripheral)
    ensures ClockStatus(r, BaseAddress(p)) <==> GateOpen(r, p)
    ensures ClockStatus(EnableWrite(r, BaseAddress(p)), BaseAddress(p))
    ensures !ClockStatus(DisableWrite(r, BaseAddress(p)), BaseAddress(p))
  {
    HandleRoundTrip(p);
  }

  /** An unrecognised handle: all three chains return false and no register changes. */
  lemma UnknownHandleChangesNothing(r: EnableRegs, handle: nat)
    requires PeripheralAt(handle).None?
    ensures !ClockStatus(r, handle) && !EnableResult(r, handle) && !DisableResult(r, handle)
    ensures EnableWrite(r, handle) == r && DisableWrite(r, handle) == r
  {
  }
}
