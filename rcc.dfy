/**
 * Register layout of the reset-and-clock-control block (RCC) and of the flash
 * access-control register, as far as the clock start-up sequences use them,
 * and the conditions under which the reference manual RM0008 lets software
 * change the PLL set-up.  Bit positions are those of the STM32F103xB
 * (RM0008, sections 7.3.1, 7.3.2 and 3.3.3).
 */
module Rcc {
  import opened CpuConfig

  // RCC->CR
  const RCC_CR_HSION: bv32 := 0x0000_0001
  const RCC_CR_HSIRDY: bv32 := 0x0000_0002
  const RCC_CR_HSEON: bv32 := 0x0001_0000
  const RCC_CR_HSERDY: bv32 := 0x0002_0000
  const RCC_CR_CSSON: bv32 := 0x0008_0000
  const RCC_CR_PLLON: bv32 := 0x0100_0000
  const RCC_CR_PLLRDY: bv32 := 0x0200_0000

  // RCC->CFGR
  const RCC_CFGR_SW: bv32 := 0x0000_0003
  const RCC_CFGR_SW_HSI: bv32 := 0x0000_0000
  const RCC_CFGR_SW_HSE: bv32 := 0x0000_0001
  const RCC_CFGR_SW_PLL: bv32 := 0x0000_0002
  const RCC_CFGR_SWS: bv32 := 0x0000_000C
  const RCC_CFGR_SWS_HSI: bv32 := 0x0000_0000
  const RCC_CFGR_SWS_HSE: bv32 := 0x0000_0004
  const RCC_CFGR_SWS_PLL: bv32 := 0x0000_0008
  const RCC_CFGR_HPRE: bv32 := 0x0000_00F0
  const RCC_CFGR_HPRE_DIV1: bv32 := 0x0000_0000
  const RCC_CFGR_PPRE1: bv32 := 0x0000_0700
  const RCC_CFGR_PPRE1_POS: bv32 := 8
  const RCC_CFGR_PPRE2: bv32 := 0x0000_3800
  const RCC_CFGR_PPRE2_POS: bv32 := 11
  const RCC_CFGR_PPRE2_DIV1: bv32 := 0x0000_0000
  const RCC_CFGR_ADCPRE: bv32 := 0x0000_C000
  const RCC_CFGR_PLLSRC: bv32 := 0x0001_0000
  const RCC_CFGR_PLLXTPRE: bv32 := 0x0002_0000
  /** PLLMULL together with PLLXTPRE (bits 17..21). */
  const RCC_CFGR_PLL_TUNING: bv32 := 0x003E_0000

  /** The position of PWREN, the APB1ENR bit the start-up sequences set (mask 0x1000_0000). */
  const RCC_APB1ENR_PWREN_BIT: bv5 := 28

  // FLASH->ACR; the LATENCY_n names are single-bit masks of the three-bit LATENCY field
  const FLASH_ACR_LATENCY: bv32 := 0x0000_0007
  const FLASH_ACR_LATENCY_0: bv32 := 0x0000_0001
  const FLASH_ACR_LATENCY_1: bv32 := 0x0000_0002
  const FLASH_ACR_LATENCY_2: bv32 := 0x0000_0004
  const FLASH_ACR_PRFTBE: bv32 := 0x0000_0010

  /**
   * The registers the start-up sequences write: RCC CR, RCC CFGR, FLASH ACR,
   * and RCC APB1ENR given by the set of its 1-bits.
   */
  datatype ClockRegs = ClockRegs(cr: bv32, cfgr: bv32, acr: bv32, apb1enr: set<bv5>)

  /** The PLL tuning bits (multiplier and HSE pre-divider), which RM0008 lets software change only while the PLL is off. */
  function Tuning(s: ClockRegs): bv32
  {
    s.cfgr & RCC_CFGR_PLL_TUNING
  }

  /** The PLL is off, reports not ready, and the system clock selector names HSI or HSE. */
  predicate PllStopped(s: ClockRegs)
  {
    && s.cr & RCC_CR_PLLON == 0
    && s.cr & RCC_CR_PLLRDY == 0
    && (s.cfgr & RCC_CFGR_SW == RCC_CFGR_SW_HSI || s.cfgr & RCC_CFGR_SW == RCC_CFGR_SW_HSE)
  }

  /** The three-bit LATENCY field of FLASH->ACR. */
  function Latency(s: ClockRegs): bv32
  {
    s.acr & FLASH_ACR_LATENCY
  }

  /**
   * The LATENCY field CPU_StartPLL leaves behind: it writes the mask
   * FLASH_ACR_LATENCY_2 for 64/72 MHz and FLASH_ACR_LATENCY_1 for 32/36 MHz,
   * and leaves the zero written by the HSI/HSE start-up for 16 MHz.
   */
  function WrittenLatency(f: PllFrequency): (field: bv32)
    ensures field & !FLASH_ACR_LATENCY == 0
  {
    match f
    case Pll64MHz | Pll72MHz => FLASH_ACR_LATENCY_2
    case Pll32MHz | Pll36MHz => FLASH_ACR_LATENCY_1
    case Pll16MHz => 0
  }

  /** The wait states RM0008 (section 3.3.3) requires for a system clock of `hz`: 0 up to 24 MHz, 1 up to 48 MHz, else 2. */
  function RequiredWaitStates(hz: nat): nat
  {
    if hz <= 24_000_000 then 0 else if hz <= 48_000_000 then 1 else 2
  }

  /** The LATENCY encodings RM0008 defines: 000, 001 and 010 for zero, one and two wait states. */
  predicate DefinedLatency(field: bv32)
  {
    field == 0 || field == 1 || field == 2
  }

  /** The LATENCY field value that gives the wait states each PLL frequency needs. */
  function IntendedLatency(f: PllFrequency): (field: bv32)
    ensures DefinedLatency(field)
    ensures field as nat == RequiredWaitStates(FrequencyHz(f))
  {
    match f
    case Pll64MHz | Pll72MHz => 2
    case Pll32MHz | Pll36MHz => 1
    case Pll16MHz => 0
  }
}
