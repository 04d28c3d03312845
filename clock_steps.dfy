/**
 * The clock start-up sequences of the CPU driver as functions from the
 * register values before a step to the values after it.  The methods of
 * Cpu.ClockControl are proved to perform exactly these steps; the lemmas here
 * state what each step and each whole sequence leaves in the registers, and
 * in what state the PLL is when its configuration is written.
 */
module ClockSteps {
  import opened Bits
  import opened CpuConfig
  import opened Rcc

  /** The bits of CFGR that the source-selection phase may write: SW, SWS and PLLSRC. */
  const SOURCE_CFGR_FIELDS: bv32 := 0x0001_000F

  /** The bits of CFGR that the tuning phase writes: HPRE, PPRE1, PPRE2, ADCPRE, PLLXTPRE and PLLMULL. */
  const TUNING_CFGR_FIELDS: bv32 := 0x003E_FFF0

  /** The bits of CFGR that CPU_StartPLL writes: SW, SWS, HPRE, PPRE1, PPRE2, ADCPRE, PLLSRC, PLLXTPRE and PLLMULL. */
  const PLL_CFGR_FIELDS: bv32 := 0x003F_FFFF

  /** `HCLK_DIV2 << RCC_CFGR_PPRE1_Pos`, the PPRE1 bits CPU_StartPLL ORs in for 64 and 72 MHz. */
  const PPRE1_HCLK_DIV2: bv32 := 0x0000_0400

  /** The CR bits that CPU_StartHSE sets (the ready flag by the hardware). */
  const HSE_CR_BITS: bv32 := 0x000B_0000

  // ---------------------------------------------------------------------------
  // The steps

  /** CPU_StartHSI: power interface on, HSI on and ready, SW cleared to HSI when it is not HSI, LATENCY cleared. */
  function HsiStarted(s: ClockRegs): ClockRegs
  {
    var cr := SetMask(SetMask(s.cr, RCC_CR_HSION), RCC_CR_HSIRDY);
    var cfgr := if s.cfgr & RCC_CFGR_SW != RCC_CFGR_SW_HSI then ClearMask(s.cfgr, RCC_CFGR_SW) else s.cfgr;
    ClockRegs(cr, cfgr, ClearMask(s.acr, FLASH_ACR_LATENCY), s.apb1enr + {RCC_APB1ENR_PWREN_BIT})
  }

  /** The wait state CPU_StartHSE adds before it turns HSE on, chosen on the crystal frequency. */
  function HseStartLatency(): (bits: bv32)
    ensures bits & !FLASH_ACR_LATENCY == 0
  {
    if HSE_VALUE <= 24_000_000 then FLASH_ACR_LATENCY_0 else FLASH_ACR_LATENCY_1
  }

  /**
   * CPU_StartHSE: power interface on, one wait state added, CSS and HSE on,
   * HSE ready, SW set to HSE, the switch reported in SWS, LATENCY cleared.
   */
  function HseStarted(s: ClockRegs): ClockRegs
  {
    var acr := SetMask(s.acr, HseStartLatency());
    var cr := SetMask(SetMask(s.cr, RCC_CR_CSSON | RCC_CR_HSEON), RCC_CR_HSERDY);
    var cfgr := WriteField(WriteField(s.cfgr, RCC_CFGR_SW, RCC_CFGR_SW_HSE), RCC_CFGR_SWS, RCC_CFGR_SWS_HSE);
    ClockRegs(cr, cfgr, ClearMask(acr, FLASH_ACR_LATENCY), s.apb1enr + {RCC_APB1ENR_PWREN_BIT})
  }

  /** The first phase of CPU_StartPLL after CPU_StartHSI: PLLSRC cleared, and for HSE, HSE started and PLLSRC set. */
  function SourceSelected(s: ClockRegs, src: PllSource): ClockRegs
  {
    var cleared := s.(cfgr := ClearMask(s.cfgr, RCC_CFGR_PLLSRC));
    if src == PllHse then
      var h := HseStarted(cleared);
      h.(cfgr := SetMask(h.cfgr, RCC_CFGR_PLLSRC))
    else
      cleared
  }

  /** PLLON cleared, then PLLRDY drops. */
  function PllHalted(s: ClockRegs): ClockRegs
  {
    s.(cr := ClearMask(ClearMask(s.cr, RCC_CR_PLLON), RCC_CR_PLLRDY))
  }

  /** The PPRE1 code CPU_StartPLL writes: HCLK / 2 for 64 and 72 MHz, HCLK / 1 otherwise. */
  function Ppre1For(f: PllFrequency): (code: bv32)
    ensures code == HCLK_DIV2 || code == HCLK_DIV1
    ensures code == HCLK_DIV2 <==> FrequencyHz(f) > 36_000_000
  {
    if f == Pll72MHz || f == Pll64MHz then HCLK_DIV2 else HCLK_DIV1
  }

  /** CFGR after the PLL factor writes of CPU_StartPLL: PLLMULL, then PLLXTPRE when the HSE pre-divider halves. */
  function FactorWrites(cfgr: bv32, mul: bv32, hseHalved: bool): bv32
  {
    var c0 := ClearMask(WriteField(cfgr, RCC_CFGR_PLLMULL, mul), RCC_CFGR_PLLXTPRE);
    if hseHalved then SetMask(c0, RCC_CFGR_PLLXTPRE) else c0
  }

  /** CFGR after the prescaler writes of CPU_StartPLL: HPRE and PPRE2 to /1, ADCPRE all ones, PPRE1 to /2 when APB1 is halved. */
  function PrescalerWrites(cfgr: bv32, apb1Halved: bool): bv32
  {
    var c0 := SetMask(ClearMask(cfgr, RCC_CFGR_HPRE), RCC_CFGR_HPRE_DIV1);
    var c1 := SetMask(ClearMask(c0, RCC_CFGR_PPRE2), RCC_CFGR_PPRE2_DIV1);
    var c2 := ClearMask(SetMask(c1, RCC_CFGR_ADCPRE), RCC_CFGR_PPRE1);
    if apb1Halved then SetMask(c2, PPRE1_HCLK_DIV2) else c2
  }

  /** CFGR after all tuning writes, given the PLLMULL bits and the two conditions the source tests. */
  function TuningWrites(cfgr: bv32, mul: bv32, hseHalved: bool, apb1Halved: bool): bv32
  {
    PrescalerWrites(FactorWrites(cfgr, mul, hseHalved), apb1Halved)
  }

  /** CFGR after the tuning writes for the PLL frequency `f`. */
  function TunedCfgr(cfgr: bv32, f: PllFrequency): bv32
  {
    var row := FactorsFor(f);
    TuningWrites(cfgr, row.mul, row.div == RCC_PREDIV1_DIV2, f == Pll72MHz || f == Pll64MHz)
  }

  /** The tuning phase: only CFGR changes. */
  function PllTuned(s: ClockRegs, f: PllFrequency): ClockRegs
  {
    s.(cfgr := TunedCfgr(s.cfgr, f))
  }

  /** The flash phase as written: prefetch buffer off, LATENCY written for 64/72 and 32/36 MHz. */
  function FlashTimed(s: ClockRegs, f: PllFrequency): ClockRegs
  {
    var acr := ClearMask(s.acr, FLASH_ACR_PRFTBE);
    s.(acr := if f == Pll72MHz || f == Pll64MHz then WriteField(acr, FLASH_ACR_LATENCY, FLASH_ACR_LATENCY_2)
              else if f == Pll32MHz || f == Pll36MHz then WriteField(acr, FLASH_ACR_LATENCY, FLASH_ACR_LATENCY_1)
              else acr)
  }

  /** The last phase: PLLON set, the PLL locks, SW set to PLL, the switch reported in SWS. */
  function PllRunning(s: ClockRegs): ClockRegs
  {
    var cfgr := WriteField(WriteField(s.cfgr, RCC_CFGR_SW, RCC_CFGR_SW_PLL), RCC_CFGR_SWS, RCC_CFGR_SWS_PLL);
    s.(cr := SetMask(SetMask(s.cr, RCC_CR_PLLON), RCC_CR_PLLRDY), cfgr := cfgr)
  }

  /** The registers when CPU_StartPLL begins to tune the PLL. */
  function TuneEntry(s: ClockRegs, src: PllSource): ClockRegs
  {
    PllHalted(SourceSelected(HsiStarted(s), src))
  }

  /** The registers when CPU_StartPLL sets PLLON. */
  function RunEntry(s: ClockRegs, src: PllSource, f: PllFrequency): ClockRegs
  {
    FlashTimed(PllTuned(TuneEntry(s, src), f), f)
  }

  /** CPU_StartPLL as a whole. */
  function PllStarted(s: ClockRegs, src: PllSource, f: PllFrequency): ClockRegs
  {
    PllRunning(RunEntry(s, src, f))
  }

  // ---------------------------------------------------------------------------
  // What each step leaves behind

  /** After CPU_StartHSI, HSI is on and selected, LATENCY is zero, and nothing else changed. */
  lemma HsiStartedSelectsHsi(s: ClockRegs)
    ensures HsiStarted(s).cr == s.cr | RCC_CR_HSION | RCC_CR_HSIRDY
    ensures HsiStarted(s).cfgr == s.cfgr & !RCC_CFGR_SW
    ensures Latency(HsiStarted(s)) == 0
    ensures HsiStarted(s).acr & !FLASH_ACR_LATENCY == s.acr & !FLASH_ACR_LATENCY
    ensures HsiStarted(s).apb1enr == s.apb1enr + {RCC_APB1ENR_PWREN_BIT}
  {
  }

  /**
   * After CPU_StartHSE, HSE and the clock security system are on, HSE is
   * selected and reported, LATENCY is zero again, and nothing else changed.
   */
  lemma HseStartedSelectsHse(s: ClockRegs)
    ensures HseStarted(s).cr == s.cr | HSE_CR_BITS
    ensures HseStarted(s).cfgr & RCC_CFGR_SW == RCC_CFGR_SW_HSE
    ensures HseStarted(s).cfgr & RCC_CFGR_SWS == RCC_CFGR_SWS_HSE
    ensures HseStarted(s).cfgr & !(RCC_CFGR_SW | RCC_CFGR_SWS) == s.cfgr & !(RCC_CFGR_SW | RCC_CFGR_SWS)
    ensures Latency(HseStarted(s)) == 0
    ensures HseStarted(s).acr & !FLASH_ACR_LATENCY == s.acr & !FLASH_ACR_LATENCY
    ensures HseStarted(s).apb1enr == s.apb1enr + {RCC_APB1ENR_PWREN_BIT}
  {
  }

  /** The crystal is rated at most 24 MHz, so CPU_StartHSE takes the one-wait-state branch. */
  lemma HseStartTakesOneWaitState()
    ensures HseStartLatency() == FLASH_ACR_LATENCY_0
  {
  }

  /** Source selection after CPU_StartHSI leaves the PLL bits of CR and the tuning bits alone, and PLLSRC names the source. */
  lemma SourceSelectedSetsPllSource(s: ClockRegs, src: PllSource)
    ensures SourceSelected(s, src).cfgr & RCC_CFGR_PLLSRC != 0 <==> src == PllHse
    ensures SourceSelected(s, src).cr & (RCC_CR_PLLON | RCC_CR_PLLRDY) == s.cr & (RCC_CR_PLLON | RCC_CR_PLLRDY)
    ensures SourceSelected(s, src).cfgr & !SOURCE_CFGR_FIELDS == s.cfgr & !SOURCE_CFGR_FIELDS
  {
    if src == PllHse {
      HseStartedSelectsHse(s.(cfgr := ClearMask(s.cfgr, RCC_CFGR_PLLSRC)));
    }
  }

  /** The tuning writes put `mul` into PLLMULL, the pre-divider choice into PLLXTPRE, and /1 into HPRE and PPRE2. */
  lemma TuningWritesFactors(cfgr: bv32, mul: bv32, hseHalved: bool, apb1Halved: bool)
    requires mul & !RCC_CFGR_PLLMULL == 0
    ensures TuningWrites(cfgr, mul, hseHalved, apb1Halved) & RCC_CFGR_PLLMULL == mul
    ensures TuningWrites(cfgr, mul, hseHalved, apb1Halved) & RCC_CFGR_PLLXTPRE != 0 <==> hseHalved
    ensures TuningWrites(cfgr, mul, hseHalved, apb1Halved) & RCC_CFGR_HPRE == RCC_CFGR_HPRE_DIV1
    ensures TuningWrites(cfgr, mul, hseHalved, apb1Halved) & RCC_CFGR_PPRE2 == RCC_CFGR_PPRE2_DIV1
  {
  }

  /** The tuning writes set every ADCPRE bit, put the APB1 choice into PPRE1, and keep the bits they do not name. */
  lemma TuningWritesPrescalers(cfgr: bv32, mul: bv32, hseHalved: bool, apb1Halved: bool)
    requires mul & !RCC_CFGR_PLLMULL == 0
    ensures TuningWrites(cfgr, mul, hseHalved, apb1Halved) & RCC_CFGR_ADCPRE == RCC_CFGR_ADCPRE
    ensures (TuningWrites(cfgr, mul, hseHalved, apb1Halved) & RCC_CFGR_PPRE1) >> RCC_CFGR_PPRE1_POS
            == if apb1Halved then 4 else 0
    ensures TuningWrites(cfgr, mul, hseHalved, apb1Halved) & !TUNING_CFGR_FIELDS == cfgr & !TUNING_CFGR_FIELDS
  {
  }

  /** Every PLLMULL value of the factor table lies inside the PLLMULL field. */
  lemma FactorsFitPllmull(f: PllFrequency)
    ensures FactorsFor(f).mul & !RCC_CFGR_PLLMULL == 0
  {
  }

  /**
   * The tuning phase writes the factor-table row into PLLMULL and PLLXTPRE,
   * sets HPRE and PPRE2 to /1, sets every ADCPRE bit and writes the PPRE1
   * code; the other CFGR bits, CR and the flash register are unchanged.
   */
  lemma PllTunedWritesFactors(s: ClockRegs, f: PllFrequency)
    ensures PllTuned(s, f).cfgr & RCC_CFGR_PLLMULL == FactorsFor(f).mul
    ensures PllTuned(s, f).cfgr & RCC_CFGR_PLLXTPRE != 0 <==> FactorsFor(f).div == RCC_PREDIV1_DIV2
    ensures PllTuned(s, f).cfgr & RCC_CFGR_HPRE == RCC_CFGR_HPRE_DIV1
    ensures PllTuned(s, f).cfgr & RCC_CFGR_PPRE2 == RCC_CFGR_PPRE2_DIV1
    ensures PllTuned(s, f).cfgr & RCC_CFGR_ADCPRE == RCC_CFGR_ADCPRE
    ensures (PllTuned(s, f).cfgr & RCC_CFGR_PPRE1) >> RCC_CFGR_PPRE1_POS == Ppre1For(f)
    ensures PllTuned(s, f).cfgr & !TUNING_CFGR_FIELDS == s.cfgr & !TUNING_CFGR_FIELDS
    ensures PllTuned(s, f).cr == s.cr && PllTuned(s, f).acr == s.acr && PllTuned(s, f).apb1enr == s.apb1enr
  {
    var row := FactorsFor(f);
    var hseHalved := row.div == RCC_PREDIV1_DIV2;
    var apb1Halved := f == Pll72MHz || f == Pll64MHz;
    FactorsFitPllmull(f);
    assert Ppre1For(f) == if apb1Halved then 4 else 0;
    assert PllTuned(s, f).cfgr == TuningWrites(s.cfgr, row.mul, hseHalved, apb1Halved);
    TuningWritesFactors(s.cfgr, row.mul, hseHalved, apb1Halved);
    TuningWritesPrescalers(s.cfgr, row.mul, hseHalved, apb1Halved);
  }

  /** Clearing PRFTBE and writing `bits` into LATENCY leaves `bits` there and the other bits, PRFTBE aside, as they were. */
  lemma FlashWrite(acr: bv32, bits: bv32)
    requires bits & !FLASH_ACR_LATENCY == 0
    ensures WriteField(ClearMask(acr, FLASH_ACR_PRFTBE), FLASH_ACR_LATENCY, bits) & FLASH_ACR_LATENCY == bits
    ensures WriteField(ClearMask(acr, FLASH_ACR_PRFTBE), FLASH_ACR_LATENCY, bits) & !FLASH_ACR_LATENCY
            == acr & !FLASH_ACR_PRFTBE & !FLASH_ACR_LATENCY
  {
  }

  /** The flash phase as written clears the prefetch enable and leaves WrittenLatency in LATENCY, except at 16 MHz. */
  lemma FlashTimedWritesLatency(s: ClockRegs, f: PllFrequency)
    ensures f == Pll16MHz ==> FlashTimed(s, f).acr == s.acr & !FLASH_ACR_PRFTBE
    ensures f != Pll16MHz ==> FlashTimed(s, f).acr & !FLASH_ACR_LATENCY == s.acr & !FLASH_ACR_PRFTBE & !FLASH_ACR_LATENCY
    ensures f != Pll16MHz ==> Latency(FlashTimed(s, f)) == WrittenLatency(f)
    ensures FlashTimed(s, f).cr == s.cr && FlashTimed(s, f).cfgr == s.cfgr
  {
    if f != Pll16MHz {
      var acr := ClearMask(s.acr, FLASH_ACR_PRFTBE);
      assert FlashTimed(s, f).acr == WriteField(acr, FLASH_ACR_LATENCY, WrittenLatency(f));
      FlashWrite(s.acr, WrittenLatency(f));
    }
  }

  /** The last phase turns the PLL on and selects it; the rest of CFGR and the flash timing are kept. */
  lemma PllRunningSelectsPll(s: ClockRegs)
    ensures PllRunning(s).cr == s.cr | RCC_CR_PLLON | RCC_CR_PLLRDY
    ensures PllRunning(s).cfgr & RCC_CFGR_SW == RCC_CFGR_SW_PLL
    ensures PllRunning(s).cfgr & RCC_CFGR_SWS == RCC_CFGR_SWS_PLL
    ensures PllRunning(s).cfgr & !(RCC_CFGR_SW | RCC_CFGR_SWS) == s.cfgr & !(RCC_CFGR_SW | RCC_CFGR_SWS)
    ensures PllRunning(s).acr == s.acr && PllRunning(s).apb1enr == s.apb1enr
  {
  }

  // ---------------------------------------------------------------------------
  // CPU_StartPLL as a whole

  /**
   * The write order of CPU_StartPLL: when the tuning writes begin, the PLL
   * is off, not ready and not the system clock, and the tuning bits are still
   * the entry values; when PLLON is set, the PLL is still stopped, CR is as
   * the tuning phase found it, and the tuning bits and the flash register
   * already hold their final values.
   */
  lemma PllStartOrder(s: ClockRegs, src: PllSource, f: PllFrequency)
    ensures PllStopped(TuneEntry(s, src))
    ensures Tuning(TuneEntry(s, src)) == Tuning(s)
    ensures PllStopped(RunEntry(s, src, f))
    ensures RunEntry(s, src, f).cr == TuneEntry(s, src).cr
    ensures Tuning(RunEntry(s, src, f)) == Tuning(PllStarted(s, src, f))
    ensures RunEntry(s, src, f).acr == PllStarted(s, src, f).acr
  {
    var h := HsiStarted(s);
    HsiStartedSelectsHsi(s);
    SourceSelectedSetsPllSource(h, src);
    var t := TuneEntry(s, src);
    PllTunedWritesFactors(t, f);
    FlashTimedWritesLatency(PllTuned(t, f), f);
    PllRunningSelectsPll(RunEntry(s, src, f));
  }

  /** After CPU_StartPLL the PLL and HSI are on and ready, HSE too when it feeds the PLL, and the power interface is clocked. */
  lemma PllStartTurnsOscillatorsOn(s: ClockRegs, src: PllSource, f: PllFrequency)
    ensures PllStarted(s, src, f).cr & (RCC_CR_HSION | RCC_CR_HSIRDY | RCC_CR_PLLON | RCC_CR_PLLRDY)
            == RCC_CR_HSION | RCC_CR_HSIRDY | RCC_CR_PLLON | RCC_CR_PLLRDY
    ensures src == PllHse ==> PllStarted(s, src, f).cr & HSE_CR_BITS == HSE_CR_BITS
    ensures PllStarted(s, src, f).apb1enr == s.apb1enr + {RCC_APB1ENR_PWREN_BIT}
  {
    var h := HsiStarted(s);
    HsiStartedSelectsHsi(s);
    if src == PllHse {
      HseStartedSelectsHse(h.(cfgr := ClearMask(h.cfgr, RCC_CFGR_PLLSRC)));
    }
    var t := TuneEntry(s, src);
    PllTunedWritesFactors(t, f);
    FlashTimedWritesLatency(PllTuned(t, f), f);
    PllRunningSelectsPll(RunEntry(s, src, f));
  }

  /**
   * After CPU_StartPLL, CFGR holds the factor-table row for `f`, PLLSRC
   * names `src`, HPRE and PPRE2 are /1, ADCPRE is all ones, PPRE1 has the
   * code for `f`, the PLL is selected and reported, and no other CFGR bit
   * changed.
   */
  lemma PllStartConfiguresPll(s: ClockRegs, src: PllSource, f: PllFrequency)
    ensures PllStarted(s, src, f).cfgr & RCC_CFGR_PLLMULL == FactorsFor(f).mul
    ensures PllStarted(s, src, f).cfgr & RCC_CFGR_PLLXTPRE != 0 <==> FactorsFor(f).div == RCC_PREDIV1_DIV2
    ensures PllStarted(s, src, f).cfgr & RCC_CFGR_PLLSRC != 0 <==> src == PllHse
    ensures PllStarted(s, src, f).cfgr & RCC_CFGR_HPRE == RCC_CFGR_HPRE_DIV1
    ensures PllStarted(s, src, f).cfgr & RCC_CFGR_PPRE2 == RCC_CFGR_PPRE2_DIV1
    ensures PllStarted(s, src, f).cfgr & RCC_CFGR_ADCPRE == RCC_CFGR_ADCPRE
    ensures (PllStarted(s, src, f).cfgr & RCC_CFGR_PPRE1) >> RCC_CFGR_PPRE1_POS == Ppre1For(f)
    ensures PllStarted(s, src, f).cfgr & RCC_CFGR_SW == RCC_CFGR_SW_PLL
    ensures PllStarted(s, src, f).cfgr & RCC_CFGR_SWS == RCC_CFGR_SWS_PLL
    ensures PllStarted(s, src, f).cfgr & !PLL_CFGR_FIELDS == s.cfgr & !PLL_CFGR_FIELDS
  {
    var h := HsiStarted(s);
    HsiStartedSelectsHsi(s);
    SourceSelectedSetsPllSource(h, src);
    var t := TuneEntry(s, src);
    PllTunedWritesFactors(t, f);
    FlashTimedWritesLatency(PllTuned(t, f), f);
    PllRunningSelectsPll(RunEntry(s, src, f));
  }

  /** Both oscillator start-ups leave LATENCY zero, so the tuning phase finds no wait states and the rest of ACR as on entry. */
  lemma TuneEntryHasNoWaitStates(s: ClockRegs, src: PllSource)
    ensures Latency(TuneEntry(s, src)) == 0
    ensures TuneEntry(s, src).acr & !FLASH_ACR_LATENCY == s.acr & !FLASH_ACR_LATENCY
  {
    var h := HsiStarted(s);
    HsiStartedSelectsHsi(s);
    if src == PllHse {
      HseStartedSelectsHse(h.(cfgr := ClearMask(h.cfgr, RCC_CFGR_PLLSRC)));
    }
  }

  /** From zero wait states, the flash phase leaves exactly WrittenLatency(f), for 16 MHz too. */
  lemma FlashTimedFromZeroLatency(s: ClockRegs, f: PllFrequency)
    requires Latency(s) == 0
    ensures Latency(FlashTimed(s, f)) == WrittenLatency(f)
    ensures FlashTimed(s, f).acr & FLASH_ACR_PRFTBE == 0
    ensures FlashTimed(s, f).acr & !(FLASH_ACR_PRFTBE | FLASH_ACR_LATENCY)
            == s.acr & !(FLASH_ACR_PRFTBE | FLASH_ACR_LATENCY)
  {
    FlashTimedWritesLatency(s, f);
  }

  /** After CPU_StartPLL the prefetch buffer is off and LATENCY holds WrittenLatency(f); the other ACR bits are kept. */
  lemma PllStartSetsFlashTiming(s: ClockRegs, src: PllSource, f: PllFrequency)
    ensures Latency(PllStarted(s, src, f)) == WrittenLatency(f)
    ensures PllStarted(s, src, f).acr & FLASH_ACR_PRFTBE == 0
    ensures PllStarted(s, src, f).acr & !(FLASH_ACR_PRFTBE | FLASH_ACR_LATENCY)
            == s.acr & !(FLASH_ACR_PRFTBE | FLASH_ACR_LATENCY)
  {
    var t := TuneEntry(s, src);
    TuneEntryHasNoWaitStates(s, src);
    PllTunedWritesFactors(t, f);
    FlashTimedFromZeroLatency(PllTuned(t, f), f);
    PllRunningSelectsPll(RunEntry(s, src, f));
  }

  // ---------------------------------------------------------------------------
  // Two defects of the sequence as written, and the sequence they call for

  /**
   * As written, the flash phase ORs the single-bit masks FLASH_ACR_LATENCY_2
   * and FLASH_ACR_LATENCY_1 into the LATENCY field: 72 MHz ends with the
   * reserved encoding 100, and 32/36 MHz with two wait states where one is
   * required.  No PLL frequency above 16 MHz gets the wait states it needs.
   */
  lemma WrittenLatencyMissesWaitStates(s: ClockRegs, src: PllSource)
    ensures !DefinedLatency(Latency(PllStarted(s, src, Pll72MHz)))
    ensures Latency(PllStarted(s, src, Pll36MHz)) as nat != RequiredWaitStates(FrequencyHz(Pll36MHz))
  {
    PllStartSetsFlashTiming(s, src, Pll72MHz);
    assert Latency(PllStarted(s, src, Pll72MHz)) == 4;
    PllStartSetsFlashTiming(s, src, Pll36MHz);
    assert Latency(PllStarted(s, src, Pll36MHz)) == 2;
  }

  /** The flash phase with the LATENCY encodings the reference manual defines. */
  function FlashTimedIntended(s: ClockRegs, f: PllFrequency): ClockRegs
  {
    s.(acr := WriteField(ClearMask(s.acr, FLASH_ACR_PRFTBE), FLASH_ACR_LATENCY, IntendedLatency(f)))
  }

  /** The registers when CPU_StartPLL, as written, clears and sets PLLSRC: after CPU_StartHSI only. */
  function SourceEntry(s: ClockRegs): ClockRegs
  {
    HsiStarted(s)
  }

  /**
   * As written, PLLSRC is rewritten before PLLON is cleared: if the PLL runs
   * on entry, it still runs when its source is changed, although RM0008
   * allows writing PLLSRC only while the PLL is off.
   */
  lemma PllSourceWrittenWhilePllRuns(s: ClockRegs)
    requires s.cr & RCC_CR_PLLON != 0
    ensures !PllStopped(SourceEntry(s))
  {
    HsiStartedSelectsHsi(s);
  }

  /** The registers when the intended sequence writes PLLSRC: after CPU_StartHSI and after the PLL is stopped. */
  function IntendedSourceEntry(s: ClockRegs): ClockRegs
  {
    PllHalted(HsiStarted(s))
  }

  /** The registers when the intended sequence begins to tune the PLL. */
  function IntendedTuneEntry(s: ClockRegs, src: PllSource): ClockRegs
  {
    SourceSelected(IntendedSourceEntry(s), src)
  }

  /** The intended CPU_StartPLL: the PLL is stopped before its source is chosen, and LATENCY gets the defined encoding. */
  function PllStartedIntended(s: ClockRegs, src: PllSource, f: PllFrequency): ClockRegs
  {
    PllRunning(FlashTimedIntended(PllTuned(IntendedTuneEntry(s, src), f), f))
  }

  /** Selecting the source does not start the PLL or select it as system clock. */
  lemma SourceSelectedKeepsPllStopped(s: ClockRegs, src: PllSource)
    requires PllStopped(s)
    ensures PllStopped(SourceSelected(s, src))
  {
    SourceSelectedSetsPllSource(s, src);
    if src == PllHse {
      HseStartedSelectsHse(s.(cfgr := ClearMask(s.cfgr, RCC_CFGR_PLLSRC)));
    }
  }

  /** The intended flash phase leaves the defined LATENCY encoding for `f` and keeps CR and CFGR. */
  lemma FlashTimedIntendedSetsLatency(s: ClockRegs, f: PllFrequency)
    ensures Latency(FlashTimedIntended(s, f)) == IntendedLatency(f)
    ensures FlashTimedIntended(s, f).cr == s.cr && FlashTimedIntended(s, f).cfgr == s.cfgr
  {
  }

  /** In the intended sequence PLLSRC and every tuning bit are written while the PLL is stopped. */
  lemma IntendedPllWritesWhileStopped(s: ClockRegs, src: PllSource)
    ensures PllStopped(IntendedSourceEntry(s))
    ensures PllStopped(IntendedTuneEntry(s, src))
  {
    HsiStartedSelectsHsi(s);
    SourceSelectedKeepsPllStopped(IntendedSourceEntry(s), src);
  }

  /** The intended sequence ends with exactly the wait states the system clock requires. */
  lemma IntendedPllStartTimesFlash(s: ClockRegs, src: PllSource, f: PllFrequency)
    ensures DefinedLatency(Latency(PllStartedIntended(s, src, f)))
    ensures Latency(PllStartedIntended(s, src, f)) as nat == RequiredWaitStates(FrequencyHz(f))
  {
    var t := PllTuned(IntendedTuneEntry(s, src), f);
    FlashTimedIntendedSetsLatency(t, f);
    PllRunningSelectsPll(FlashTimedIntended(t, f));
  }

  /** The intended sequence selects the PLL, fed from `src`. */
  lemma IntendedPllStartSelectsPll(s: ClockRegs, src: PllSource, f: PllFrequency)
    ensures PllStartedIntended(s, src, f).cfgr & RCC_CFGR_PLLSRC != 0 <==> src == PllHse
    ensures PllStartedIntended(s, src, f).cfgr & RCC_CFGR_SW == RCC_CFGR_SW_PLL
  {
    var e := IntendedTuneEntry(s, src);
    SourceSelectedSetsPllSource(IntendedSourceEntry(s), src);
    PllTunedWritesFactors(e, f);
    var t := PllTuned(e, f);
    FlashTimedIntendedSetsLatency(t, f);
    PllRunningSelectsPll(FlashTimedIntended(t, f));
  }
}
