/**
 * The constants, enumerations and PLL factor table of the CPU driver header:
 * the oscillator frequencies, the PLL source and output-frequency options,
 * the APB prescaler codes and the (pre-divider, multiplier) table indexed by
 * the output frequency.
 */
module CpuConfig {
  import opened Bits

  /** Frequency of the external crystal (HSE) and of the internal RC oscillator (HSI), in Hz. */
  const HSE_VALUE: nat := 8_000_000

  /** Values stored in the first column of the factor table. */
  const RCC_PREDIV1_DIV1: bv32 := 0
  const RCC_PREDIV1_DIV2: bv32 := 1

  /** PLLMULL field encodings (CFGR bits 18..21 hold multiplier - 2). */
  const RCC_CFGR_PLLMULL_POS: bv32 := 18
  const RCC_CFGR_PLLMULL: bv32 := 0x003C_0000
  const RCC_PLLMULL_4: bv32 := 0x0008_0000
  const RCC_PLLMULL_8: bv32 := 0x0018_0000
  const RCC_PLLMULL_9: bv32 := 0x001C_0000

  /** The oscillator that feeds the PLL; the enumeration values are 0 and 1. */
  datatype PllSource = PllHsi | PllHse

  /** The enumeration value; CPU_StartPLL tests `PllSource == Pll_Hse`, which is value 1. */
  function PllSourceValue(s: PllSource): (v: nat)
    ensures v < 2
    ensures v == 1 <==> s == PllHse
  {
    match s
    case PllHsi => 0
    case PllHse => 1
  }

  /** The five supported PLL output frequencies, in enumeration order. */
  datatype PllFrequency = Pll16MHz | Pll32MHz | Pll36MHz | Pll64MHz | Pll72MHz

  /** The enumeration value, used to index the factor table. */
  function FrequencyIndex(f: PllFrequency): nat
  {
    match f
    case Pll16MHz => 0
    case Pll32MHz => 1
    case Pll36MHz => 2
    case Pll64MHz => 3
    case Pll72MHz => 4
  }

  /** The frequency each enumerator names, in Hz. */
  function FrequencyHz(f: PllFrequency): nat
  {
    match f
    case Pll16MHz => 16_000_000
    case Pll32MHz => 32_000_000
    case Pll36MHz => 36_000_000
    case Pll64MHz => 64_000_000
    case Pll72MHz => 72_000_000
  }

  /** A row of the factor table: the value compared against RCC_PREDIV1_DIV2 and the PLLMULL bits. */
  datatype PllFactor = PllFactor(div: bv32, mul: bv32)

  /**
   * The factor table is declared with six rows; only five have initialisers,
   * so the sixth is zero-initialised.
   */
  const PLL_FACTORS: seq<PllFactor> := [
    PllFactor(RCC_PREDIV1_DIV2, RCC_PLLMULL_4),
    PllFactor(RCC_PREDIV1_DIV2, RCC_PLLMULL_8),
    PllFactor(RCC_PREDIV1_DIV2, RCC_PLLMULL_9),
    PllFactor(RCC_PREDIV1_DIV1, RCC_PLLMULL_8),
    PllFactor(RCC_PREDIV1_DIV1, RCC_PLLMULL_9),
    PllFactor(0, 0)
  ]

  /** The row the clock start-up reads for a given output frequency: one of the five filled rows, never the zero row at the end. */
  function FactorsFor(f: PllFrequency): (row: PllFactor)
    ensures FrequencyIndex(f) < |PLL_FACTORS| - 1
    ensures row != PLL_FACTORS[|PLL_FACTORS| - 1]
  {
    PLL_FACTORS[FrequencyIndex(f)]
  }

  /** The PLL multiplication factor a PLLMULL field value selects (RM0008: code c gives c + 2, code 15 gives 16). */
  function MultiplierOf(pllmull: bv32): (m: nat)
    ensures 2 <= m <= 16
  {
    var code := ((pllmull & RCC_CFGR_PLLMULL) >> RCC_CFGR_PLLMULL_POS) as nat;
    if code == 15 then 16 else code + 2
  }

  /** The pre-divider a factor row asks for: 2 when it equals RCC_PREDIV1_DIV2, else 1. */
  function DividerOf(row: PllFactor): nat
  {
    if row.div == RCC_PREDIV1_DIV2 then 2 else 1
  }

  /** The APB prescaler options of the BusFrequencies enumeration: its values are the PPRE field codes 0 and 4 to 7. */
  type BusFrequency = c: bv32 | c == 0 || 4 <= c <= 7

  const HCLK_DIV1: BusFrequency := 0
  const HCLK_DIV2: BusFrequency := 4
  const HCLK_DIV4: BusFrequency := 5
  const HCLK_DIV8: BusFrequency := 6
  const HCLK_DIV16: BusFrequency := 7

  /** The divisor each option's documentation promises. */
  function DocumentedDivisor(b: BusFrequency): nat
  {
    if b == HCLK_DIV1 then 1
    else if b == HCLK_DIV2 then 2
    else if b == HCLK_DIV4 then 4
    else if b == HCLK_DIV8 then 8
    else 16
  }

  /** Every prescaler code fits the 3-bit PPRE field, and a code c >= 4 documents the divisor 2^(c-3). */
  lemma BusCodesFitPpre(b: BusFrequency)
    ensures b < 8
    ensures b == 0 <==> DocumentedDivisor(b) == 1
    ensures b >= 4 ==> DocumentedDivisor(b) == Pow2(b as nat - 3)
  {
    assert Pow2(1) == 2 && Pow2(2) == 4 && Pow2(3) == 8 && Pow2(4) == 16;
  }

  /** With the 8 MHz crystal, each row of the table gives exactly the frequency its enumerator names. */
  lemma FactorsGiveTier(f: PllFrequency)
    ensures (HSE_VALUE / DividerOf(FactorsFor(f))) * MultiplierOf(FactorsFor(f).mul) == FrequencyHz(f)
  {
  }

  /** The factor rows in table order are (/2, x4), (/2, x8), (/2, x9), (/1, x8), (/1, x9). */
  lemma FactorRows()
    ensures DividerOf(PLL_FACTORS[0]) == 2 && MultiplierOf(PLL_FACTORS[0].mul) == 4
    ensures DividerOf(PLL_FACTORS[1]) == 2 && MultiplierOf(PLL_FACTORS[1].mul) == 8
    ensures DividerOf(PLL_FACTORS[2]) == 2 && MultiplierOf(PLL_FACTORS[2].mul) == 9
    ensures DividerOf(PLL_FACTORS[3]) == 1 && MultiplierOf(PLL_FACTORS[3].mul) == 8
    ensures DividerOf(PLL_FACTORS[4]) == 1 && MultiplierOf(PLL_FACTORS[4].mul) == 9
  {
  }
}
