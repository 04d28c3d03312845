/**
 * The CPU driver's view of the reset-and-clock-control block: the registers
 * it reads and writes, and its operations as methods that perform the
 * source's register writes one by one.  Each busy-wait on a ready or status
 * flag is modelled as the hardware raising that flag in a single step.
 */
module Cpu {
  import opened Bits
  import opened CpuConfig
  import opened Rcc
  import opened ClockSteps
  import opened BusClock
  import opened EnableRegisters
  import opened PeripheralGate
  import opened Optional

  class ClockControl {
    /** RCC->CR, RCC->CFGR and FLASH->ACR. */
    var cr: bv32
    var cfgr: bv32
    var acr: bv32
    /** The 1-bits of RCC->APB1ENR, RCC->APB2ENR and RCC->AHBENR. */
    var apb1enr: set<bv5>
    var apb2enr: set<bv5>
    var ahbenr: set<bv5>

    /** The registers the start-up sequences write. */
    function Regs(): ClockRegs
      reads this
    {
      ClockRegs(cr, cfgr, acr, apb1enr)
    }

    /** The three clock-enable registers. */
    function Gates(): EnableRegs
      reads this
    {
      EnableRegs(apb1enr, apb2enr, ahbenr)
    }

    /** A clock controller whose registers hold the given values. */
    constructor(regs: ClockRegs, apb2: set<bv5>, ahb: set<bv5>)
      ensures Regs() == regs
      ensures Gates() == EnableRegs(regs.apb1enr, apb2, ahb)
    {
      cr := regs.cr;
      cfgr := regs.cfgr;
      acr := regs.acr;
      apb1enr := regs.apb1enr;
      apb2enr := apb2;
      ahbenr := ahb;
    }

    // -------------------------------------------------------------------------
    // Oscillator and PLL start-up

    /** CPU_StartHSI. */
    method StartHSI()
      modifies this
      ensures Regs() == HsiStarted(old(Regs()))
      ensures apb2enr == old(apb2enr) && ahbenr == old(ahbenr)
    {
      var c, g := cr, cfgr;
      apb1enr := apb1enr + {RCC_APB1ENR_PWREN_BIT};
      c := SetMask(c, RCC_CR_HSION);
      c := SetMask(c, RCC_CR_HSIRDY);
      if g & RCC_CFGR_SW != RCC_CFGR_SW_HSI {
        g := ClearMask(g, RCC_CFGR_SW);
      }
      cr, cfgr, acr := c, g, ClearMask(acr, FLASH_ACR_LATENCY);
    }

    /** CPU_StartHSE; the RCC interrupt set-up in the NVIC is not modelled. */
    method StartHSE()
      modifies this
      ensures Regs() == HseStarted(old(Regs()))
      ensures apb2enr == old(apb2enr) && ahbenr == old(ahbenr)
    {
      var c, g, a := cr, cfgr, acr;
      apb1enr := apb1enr + {RCC_APB1ENR_PWREN_BIT};
      if HSE_VALUE <= 24_000_000 {
        a := SetMask(a, FLASH_ACR_LATENCY_0);
      } else {
        a := SetMask(a, FLASH_ACR_LATENCY_1);
      }
      c := SetMask(c, RCC_CR_CSSON | RCC_CR_HSEON);
      c := SetMask(c, RCC_CR_HSERDY);
      g := WriteField(g, RCC_CFGR_SW, RCC_CFGR_SW_HSE);
      g := WriteField(g, RCC_CFGR_SWS, RCC_CFGR_SWS_HSE);
      a := ClearMask(a, FLASH_ACR_LATENCY);
      cr, cfgr, acr := c, g, a;
    }

    /** CPU_StartPLL: the phases below in source order. */
    method StartPLL(src: PllSource, f: PllFrequency)
      modifies this
      ensures Regs() == PllStarted(old(Regs()), src, f)
      ensures apb2enr == old(apb2enr) && ahbenr == old(ahbenr)
    {
      StartHSI();
      SelectSource(src);
      HaltPll();
      TunePll(f);
      TimeFlash(f);
      RunPll();
    }

    /** Lines 62-67: PLLSRC cleared; for HSE, CPU_StartHSE and PLLSRC set. */
    method SelectSource(src: PllSource)
      modifies this
      ensures Regs() == SourceSelected(old(Regs()), src)
      ensures apb2enr == old(apb2enr) && ahbenr == old(ahbenr)
    {
      cfgr := ClearMask(cfgr, RCC_CFGR_PLLSRC);
      if src == PllHse {
        StartHSE();
        cfgr := SetMask(cfgr, RCC_CFGR_PLLSRC);
      }
    }

    /** Lines 69-70: PLLON cleared, then the hardware drops PLLRDY. */
    method HaltPll()
      modifies this
      ensures Regs() == PllHalted(old(Regs()))
      ensures apb1enr == old(apb1enr) && apb2enr == old(apb2enr) && ahbenr == old(ahbenr)
    {
      cr := ClearMask(cr, RCC_CR_PLLON);
      cr := ClearMask(cr, RCC_CR_PLLRDY);
    }

    /** Lines 72-94: the multiplier, the HSE pre-divider and the bus prescalers. */
    method TunePll(f: PllFrequency)
      modifies this
      ensures Regs() == PllTuned(old(Regs()), f)
      ensures apb1enr == old(apb1enr) && apb2enr == old(apb2enr) && ahbenr == old(ahbenr)
    {
      var row := FactorsFor(f);
      WriteFactors(row.mul, row.div == RCC_PREDIV1_DIV2);
      WritePrescalers(f == Pll72MHz || f == Pll64MHz);
    }

    /** Lines 72-80: PLLMULL written with `mul`, then PLLXTPRE cleared, and set when `hseHalved`. */
    method WriteFactors(mul: bv32, hseHalved: bool)
      modifies this
      ensures cfgr == FactorWrites(old(cfgr), mul, hseHalved)
      ensures cr == old(cr) && acr == old(acr)
      ensures apb1enr == old(apb1enr) && apb2enr == old(apb2enr) && ahbenr == old(ahbenr)
    {
      var g := WriteField(cfgr, RCC_CFGR_PLLMULL, mul);
      g := ClearMask(g, RCC_CFGR_PLLXTPRE);
      if hseHalved {
        g := SetMask(g, RCC_CFGR_PLLXTPRE);
      }
      cfgr := g;
    }

    /** Lines 82-94: HPRE and PPRE2 to /1, ADCPRE set, PPRE1 cleared and set to /2 when `apb1Halved`. */
    method WritePrescalers(apb1Halved: bool)
      modifies this
      ensures cfgr == PrescalerWrites(old(cfgr), apb1Halved)
      ensures cr == old(cr) && acr == old(acr)
      ensures apb1enr == old(apb1enr) && apb2enr == old(apb2enr) && ahbenr == old(ahbenr)
    {
      var g := ClearMask(cfgr, RCC_CFGR_HPRE);
      g := SetMask(g, RCC_CFGR_HPRE_DIV1);
      g := ClearMask(g, RCC_CFGR_PPRE2);
      g := SetMask(g, RCC_CFGR_PPRE2_DIV1);
      g := SetMask(g, RCC_CFGR_ADCPRE);
      g := ClearMask(g, RCC_CFGR_PPRE1);
      if apb1Halved {
        g := SetMask(g, PPRE1_HCLK_DIV2);
      }
      cfgr := g;
    }

    /** Lines 96-102: the prefetch buffer off and the LATENCY write. */
    method TimeFlash(f: PllFrequency)
      modifies this
      ensures Regs() == FlashTimed(old(Regs()), f)
      ensures apb1enr == old(apb1enr) && apb2enr == old(apb2enr) && ahbenr == old(ahbenr)
    {
      acr := ClearMask(acr, FLASH_ACR_PRFTBE);
      if f == Pll72MHz || f == Pll64MHz {
        acr := WriteField(acr, FLASH_ACR_LATENCY, FLASH_ACR_LATENCY_2);
      } else if f == Pll32MHz || f == Pll36MHz {
        acr := WriteField(acr, FLASH_ACR_LATENCY, FLASH_ACR_LATENCY_1);
      }
    }

    /** Lines 104-109: PLLON set, the PLL locks, the system clock switches to it. */
    method RunPll()
      modifies this
      ensures Regs() == PllRunning(old(Regs()))
      ensures apb1enr == old(apb1enr) && apb2enr == old(apb2enr) && ahbenr == old(ahbenr)
    {
      cr := SetMask(cr, RCC_CR_PLLON);
      cr := SetMask(cr, RCC_CR_PLLRDY);
      cfgr := WriteField(cfgr, RCC_CFGR_SW, RCC_CFGR_SW_PLL);
      cfgr := WriteField(cfgr, RCC_CFGR_SWS, RCC_CFGR_SWS_PLL);
    }

    // -------------------------------------------------------------------------
    // APB prescalers

    /** CPU_SetFrequencyAPB1. */
    method SetFrequencyAPB1(b: BusFrequency)
      modifies this
      ensures cfgr == WithPpre1(old(cfgr), b)
      ensures cr == old(cr) && acr == old(acr)
      ensures apb1enr == old(apb1enr) && apb2enr == old(apb2enr) && ahbenr == old(ahbenr)
    {
      var g := ClearMask(cfgr, RCC_CFGR_PPRE1);
      g := SetMask(g, b << RCC_CFGR_PPRE1_POS);
      cfgr := g;
    }

    /** CPU_SetFrequencyAPB2. */
    method SetFrequencyAPB2(b: BusFrequency)
      modifies this
      ensures cfgr == WithPpre2(old(cfgr), b)
      ensures cr == old(cr) && acr == old(acr)
      ensures apb1enr == old(apb1enr) && apb2enr == old(apb2enr) && ahbenr == old(ahbenr)
    {
      var g := ClearMask(cfgr, RCC_CFGR_PPRE2);
      g := SetMask(g, b << RCC_CFGR_PPRE2_POS);
      cfgr := g;
    }

    /** CPU_GetFrequencyAPB1, as written: it divides by 2, 3, 4 and 5 for the codes 4 to 7. */
    method GetFrequencyAPB1(systemCoreClock: nat) returns (hz: nat)
      ensures hz == Apb1Frequency(cfgr, systemCoreClock)
      ensures hz <= systemCoreClock
    {
      var div := Ppre1Field(cfgr);
      if div < 4 {
        div := 1;
      } else {
        div := 2 + (div - 4);
      }
      hz := systemCoreClock / div;
    }

    /** CPU_GetTimerFrequencyAPB1. */
    method GetTimerFrequencyAPB1(systemCoreClock: nat) returns (hz: nat)
      ensures hz == Apb1TimerFrequency(cfgr, systemCoreClock)
      ensures hz <= systemCoreClock
    {
      var mul := 1;
      var div := Ppre1Field(cfgr);
      if div < 4 {
        div := 1;
      } else {
        div := 2 * Pow2(div - 4);
        mul := 2;
      }
      QuotientBounded(systemCoreClock, div);
      hz := (systemCoreClock / div) * mul;
    }

    /** CPU_GetFrequencyAPB2, as written: it reports the APB2 timer clock. */
    method GetFrequencyAPB2(systemCoreClock: nat) returns (hz: nat)
      ensures hz == Apb2Frequency(cfgr, systemCoreClock)
      ensures hz <= systemCoreClock
    {
      var mul := 1;
      var div := Ppre2Field(cfgr);
      if div < 4 {
        div := 1;
      } else {
        div := 2 * Pow2(div - 4);
        mul := 2;
      }
      QuotientBounded(systemCoreClock, div);
      hz := (systemCoreClock / div) * mul;
    }

    /** CPU_GetTimerFrequencyAPB2, as written: it divides by 2, 3, 4 and 5 and doubles. */
    method GetTimerFrequencyAPB2(systemCoreClock: nat) returns (hz: nat)
      ensures hz == Apb2TimerFrequency(cfgr, systemCoreClock)
      ensures hz <= systemCoreClock
    {
      var mul := 1;
      var div := Ppre2Field(cfgr);
      if div < 4 {
        div := 1;
      } else {
        div := 2 + (div - 4);
        mul := 2;
      }
      hz := (systemCoreClock / div) * mul;
    }

    // -------------------------------------------------------------------------
    // Peripheral clock gates

    /** `REG |= 1 << bit` on one gate; returns the register's truth value afterwards. */
    method OpenGate(g: Gate) returns (nonzero: bool)
      modifies this
      ensures Gates() == SetGate(old(Gates()), g)
      ensures nonzero
      ensures Regs().cr == old(cr) && cfgr == old(cfgr) && acr == old(acr)
    {
      match g.reg
      case Apb1 => apb1enr := apb1enr + {g.bit}; nonzero := apb1enr != {};
      case Apb2 => apb2enr := apb2enr + {g.bit}; nonzero := apb2enr != {};
      case Ahb => ahbenr := ahbenr + {g.bit}; nonzero := ahbenr != {};
    }

    /** `REG &= ~(1 << bit)` on one gate; returns the register's truth value afterwards. */
    method CloseGate(g: Gate) returns (nonzero: bool)
      modifies this
      ensures Gates() == ClearGate(old(Gates()), g)
      ensures nonzero <==> Get(Gates(), g.reg) != {}
      ensures cr == old(cr) && cfgr == old(cfgr) && acr == old(acr)
    {
      match g.reg
      case Apb1 => apb1enr := apb1enr - {g.bit}; nonzero := apb1enr != {};
      case Apb2 => apb2enr := apb2enr - {g.bit}; nonzero := apb2enr != {};
      case Ahb => ahbenr := ahbenr - {g.bit}; nonzero := ahbenr != {};
    }

    /** CPU_PeripheralClockEnable: the gate of the peripheral at `handle` opens; false for an unknown handle. */
    method PeripheralClockEnable(handle: nat) returns (result: bool)
      modifies this
      ensures Gates() == EnableWrite(old(Gates()), handle)
      ensures result <==> PeripheralAt(handle).Some?
      ensures cr == old(cr) && cfgr == old(cfgr) && acr == old(acr)
    {
      result := false;
      var p := PeripheralAt(handle);
      if p.Some? {
        result := OpenGate(GateOf(p.value));
      }
    }

    /** CPU_PeripheralClockDisable, as written: true only when the register still has a bit set afterwards. */
    method PeripheralClockDisable(handle: nat) returns (result: bool)
      modifies this
      ensures Gates() == DisableWrite(old(Gates()), handle)
      ensures result == DisableResult(old(Gates()), handle)
      ensures cr == old(cr) && cfgr == old(cfgr) && acr == old(acr)
    {
      result := false;
      var p := PeripheralAt(handle);
      if p.Some? {
        result := CloseGate(GateOf(p.value));
      }
    }

    /** CPU_PeripheralClockStatus: whether the gate of the peripheral at `handle` is open; false for an unknown handle. */
    method PeripheralClockStatus(handle: nat) returns (on: bool)
      ensures on == ClockStatus(Gates(), handle)
      ensures on <==> (PeripheralAt(handle).Some? && GateOpen(Gates(), PeripheralAt(handle).value))
    {
      on := false;
      var p := PeripheralAt(handle);
      if p.Some? {
        var g := GateOf(p.value);
        on := g.bit in Get(Gates(), g.reg);
      }
    }
  }
}
