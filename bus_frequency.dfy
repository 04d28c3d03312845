/**
 * The APB prescaler setters and the four frequency getters of the CPU
 * driver.  A setter writes a BusFrequencies code into the three-bit PPRE1
 * (CFGR bits 8..10) or PPRE2 (bits 11..13) field; a getter reads the field
 * back and turns SystemCoreClock into a bus or timer frequency.
 * SystemCoreClock is an input here: it is maintained by the CMSIS routine
 * SystemCoreClockUpdate, which is not part of this model.
 */
module BusClock {
  import opened Bits
  import opened CpuConfig
  import opened Rcc

  /** The largest value a uint32_t SystemCoreClock can hold, plus one. */
  const UINT32_LIMIT: nat := 0x1_0000_0000

  // ---------------------------------------------------------------------------
  // Setting a prescaler

  /** CFGR after CPU_SetFrequencyAPB1: PPRE1 cleared, then the code OR-ed in at bit 8. */
  function WithPpre1(cfgr: bv32, b: BusFrequency): bv32
  {
    SetMask(ClearMask(cfgr, RCC_CFGR_PPRE1), b << RCC_CFGR_PPRE1_POS)
  }

  /** CFGR after CPU_SetFrequencyAPB2: PPRE2 cleared, then the code OR-ed in at bit 11. */
  function WithPpre2(cfgr: bv32, b: BusFrequency): bv32
  {
    SetMask(ClearMask(cfgr, RCC_CFGR_PPRE2), b << RCC_CFGR_PPRE2_POS)
  }

  /** Setting APB1's prescaler puts its code into PPRE1 and keeps every other CFGR bit, PPRE2 among them. */
  lemma Ppre1Write(cfgr: bv32, b: BusFrequency)
    ensures (WithPpre1(cfgr, b) & RCC_CFGR_PPRE1) >> RCC_CFGR_PPRE1_POS == b
    ensures WithPpre1(cfgr, b) & !RCC_CFGR_PPRE1 == cfgr & !RCC_CFGR_PPRE1
    ensures WithPpre1(cfgr, b) & RCC_CFGR_PPRE2 == cfgr & RCC_CFGR_PPRE2
  {
  }

  /** Setting APB2's prescaler puts its code into PPRE2 and keeps every other CFGR bit, PPRE1 among them. */
  lemma Ppre2Write(cfgr: bv32, b: BusFrequency)
    ensures (WithPpre2(cfgr, b) & RCC_CFGR_PPRE2) >> RCC_CFGR_PPRE2_POS == b
    ensures WithPpre2(cfgr, b) & !RCC_CFGR_PPRE2 == cfgr & !RCC_CFGR_PPRE2
    ensures WithPpre2(cfgr, b) & RCC_CFGR_PPRE1 == cfgr & RCC_CFGR_PPRE1
  {
  }

  /** The PPRE1 field, `(CFGR & PPRE1) >> 8`. */
  function Ppre1Field(cfgr: bv32): (f: nat)
    ensures f < 8
  {
    ((cfgr & RCC_CFGR_PPRE1) >> RCC_CFGR_PPRE1_POS) as nat
  }

  /** The PPRE2 field, `(CFGR & PPRE2) >> 11`. */
  function Ppre2Field(cfgr: bv32): (f: nat)
    ensures f < 8
  {
    ((cfgr & RCC_CFGR_PPRE2) >> RCC_CFGR_PPRE2_POS) as nat
  }

  /** Setting APB2's prescaler leaves APB1's field alone, and the other way round. */
  lemma PrescalersIndependent(cfgr: bv32, b: BusFrequency)
    ensures Ppre2Field(WithPpre1(cfgr, b)) == Ppre2Field(cfgr)
    ensures Ppre1Field(WithPpre2(cfgr, b)) == Ppre1Field(cfgr)
  {
    Ppre1Write(cfgr, b);
    Ppre2Write(cfgr, b);
  }

  // ---------------------------------------------------------------------------
  // The two divisor formulas the getters use

  /** `Div = 2 + (Div - 4)` for a field of 4 or more, 1 below: the divisor of GetFrequencyAPB1 and GetTimerFrequencyAPB2. */
  function OffsetDivisor(f: nat): (d: nat)
    requires f < 8
    ensures d >= 1
    ensures f >= 4 ==> d >= 2
  {
    if f < 4 then 1 else 2 + (f - 4)
  }

  /** `Div = 2 << (Div - 4)` for a field of 4 or more, 1 below: the divisor of GetTimerFrequencyAPB1 and GetFrequencyAPB2. */
  function ShiftDivisor(f: nat): (d: nat)
    requires f < 8
    ensures d >= 1
    ensures f >= 4 ==> d >= 2
  {
    if f < 4 then 1 else 2 * Pow2(f - 4)
  }

  /** `Mul`: 2 for a field of 4 or more, 1 below. */
  function TimerMultiplier(f: nat): nat
  {
    if f < 4 then 1 else 2
  }

  /** `(x / d) * 2` never exceeds `x` when `d >= 2`. */
  lemma HalvedTwiceBounded(x: nat, d: nat)
    requires d >= 2
    ensures (x / d) * 2 <= x
  {
    var q := x / d;
    assert q * d <= x;
    assert q * 2 <= q * d;
  }

  /** `(x / d) * Mul` is `x` for a field below 4, and never more than `x`: no uint32 overflow. */
  lemma ScaledBounded(x: nat, f: nat, d: nat)
    requires f < 8 && d >= 1 && (f >= 4 ==> d >= 2) && (f < 4 ==> d == 1)
    ensures (x / d) * TimerMultiplier(f) <= x
    ensures f < 4 ==> (x / d) * TimerMultiplier(f) == x
  {
    if f >= 4 {
      HalvedTwiceBounded(x, d);
    }
  }

  /** A quotient by a positive divisor lies between 0 and the dividend. */
  lemma QuotientBounded(x: nat, d: int)
    requires d >= 1
    ensures 0 <= x / d <= x
  {
  }

  // ---------------------------------------------------------------------------
  // The four getters as written

  /** CPU_GetFrequencyAPB1: `SystemCoreClock / Div` with the offset divisor. */
  function Apb1Frequency(cfgr: bv32, systemCoreClock: nat): (hz: nat)
    ensures hz <= systemCoreClock
    ensures Ppre1Field(cfgr) < 4 ==> hz == systemCoreClock
  {
    systemCoreClock / OffsetDivisor(Ppre1Field(cfgr))
  }

  /** CPU_GetTimerFrequencyAPB1: `(SystemCoreClock / Div) * Mul` with the shift divisor. */
  function Apb1TimerFrequency(cfgr: bv32, systemCoreClock: nat): (hz: nat)
    ensures hz <= systemCoreClock
    ensures Ppre1Field(cfgr) < 4 ==> hz == systemCoreClock
  {
    var f := Ppre1Field(cfgr);
    ScaledBounded(systemCoreClock, f, ShiftDivisor(f));
    (systemCoreClock / ShiftDivisor(f)) * TimerMultiplier(f)
  }

  /** CPU_GetFrequencyAPB2: `(SystemCoreClock / Div) * Mul` with the shift divisor. */
  function Apb2Frequency(cfgr: bv32, systemCoreClock: nat): (hz: nat)
    ensures hz <= systemCoreClock
    ensures Ppre2Field(cfgr) < 4 ==> hz == systemCoreClock
  {
    var f := Ppre2Field(cfgr);
    ScaledBounded(systemCoreClock, f, ShiftDivisor(f));
    (systemCoreClock / ShiftDivisor(f)) * TimerMultiplier(f)
  }

  /** CPU_GetTimerFrequencyAPB2: `(SystemCoreClock / Div) * Mul` with the offset divisor. */
  function Apb2TimerFrequency(cfgr: bv32, systemCoreClock: nat): (hz: nat)
    ensures hz <= systemCoreClock
    ensures Ppre2Field(cfgr) < 4 ==> hz == systemCoreClock
  {
    var f := Ppre2Field(cfgr);
    ScaledBounded(systemCoreClock, f, OffsetDivisor(f));
    (systemCoreClock / OffsetDivisor(f)) * TimerMultiplier(f)
  }

  /** No getter's result exceeds SystemCoreClock, so none overflows a uint32_t. */
  lemma GettersFitUint32(cfgr: bv32, systemCoreClock: nat)
    requires systemCoreClock < UINT32_LIMIT
    ensures Apb1Frequency(cfgr, systemCoreClock) < UINT32_LIMIT
    ensures Apb1TimerFrequency(cfgr, systemCoreClock) < UINT32_LIMIT
    ensures Apb2Frequency(cfgr, systemCoreClock) < UINT32_LIMIT
    ensures Apb2TimerFrequency(cfgr, systemCoreClock) < UINT32_LIMIT
  {
  }

  // ---------------------------------------------------------------------------
  // What the prescaler does, after RM0008 section 7.2

  /** The bus frequency the BusFrequencies documentation promises: HCLK divided by 2^(code - 3) for a code of 4 or more. */
  function BusFrequencyIntended(f: nat, systemCoreClock: nat): nat
    requires f < 8
  {
    if f < 4 then systemCoreClock
    else if f == 4 then systemCoreClock / 2
    else if f == 5 then systemCoreClock / 4
    else if f == 6 then systemCoreClock / 8
    else systemCoreClock / 16
  }

  /** The timer clock RM0008 derives from a bus: the bus clock when the prescaler is /1, twice it otherwise. */
  function TimerFrequencyIntended(f: nat, systemCoreClock: nat): nat
    requires f < 8
  {
    BusFrequencyIntended(f, systemCoreClock) * TimerMultiplier(f)
  }

  /** The corrected CPU_GetFrequencyAPB1 and CPU_GetFrequencyAPB2: the documented bus frequency of the field. */
  function Apb1FrequencyIntended(cfgr: bv32, systemCoreClock: nat): nat
  {
    BusFrequencyIntended(Ppre1Field(cfgr), systemCoreClock)
  }

  function Apb2FrequencyIntended(cfgr: bv32, systemCoreClock: nat): nat
  {
    BusFrequencyIntended(Ppre2Field(cfgr), systemCoreClock)
  }

  /** The corrected CPU_GetTimerFrequencyAPB2: the timer clock of the APB2 field. */
  function Apb2TimerFrequencyIntended(cfgr: bv32, systemCoreClock: nat): nat
  {
    TimerFrequencyIntended(Ppre2Field(cfgr), systemCoreClock)
  }

  /** `2 << (f - 4)` is `2^(f - 3)`. */
  lemma ShiftDivisorIsPower(f: nat)
    requires 4 <= f < 8
    ensures ShiftDivisor(f) == Pow2(f - 3)
    ensures ShiftDivisor(f) == if f == 4 then 2 else if f == 5 then 4 else if f == 6 then 8 else 16
  {
    assert Pow2(f - 3) == 2 * Pow2(f - 4);
    assert Pow2(1) == 2 && Pow2(2) == 4 && Pow2(3) == 8;
  }

  /** The field a setter wrote reads back as the code. */
  lemma FieldReadsBackCode(cfgr: bv32, b: BusFrequency)
    ensures Ppre1Field(WithPpre1(cfgr, b)) == b as nat
    ensures Ppre2Field(WithPpre2(cfgr, b)) == b as nat
  {
    Ppre1Write(cfgr, b);
    Ppre2Write(cfgr, b);
  }

  /** The corrected getters complete the documented round trip: after setting HCLK_DIVn they report SystemCoreClock / n. */
  lemma IntendedRoundTrip(cfgr: bv32, b: BusFrequency, systemCoreClock: nat)
    ensures Apb1FrequencyIntended(WithPpre1(cfgr, b), systemCoreClock) == systemCoreClock / DocumentedDivisor(b)
    ensures Apb2FrequencyIntended(WithPpre2(cfgr, b), systemCoreClock) == systemCoreClock / DocumentedDivisor(b)
  {
    FieldReadsBackCode(cfgr, b);
    BusCodesFitPpre(b);
  }

  /** CPU_GetTimerFrequencyAPB1 as written is the timer clock RM0008 describes. */
  lemma Apb1TimerIsIntended(cfgr: bv32, systemCoreClock: nat)
    ensures Apb1TimerFrequency(cfgr, systemCoreClock) == TimerFrequencyIntended(Ppre1Field(cfgr), systemCoreClock)
  {
    var f := Ppre1Field(cfgr);
    if f >= 4 {
      ShiftDivisorIsPower(f);
    }
  }

  /** CPU_GetFrequencyAPB1 as written keeps the documented round trip for HCLK_DIV1 and HCLK_DIV2. */
  lemma Apb1RoundTripForDiv1And2(cfgr: bv32, b: BusFrequency, systemCoreClock: nat)
    requires b == HCLK_DIV1 || b == HCLK_DIV2
    ensures Apb1Frequency(WithPpre1(cfgr, b), systemCoreClock) == systemCoreClock / DocumentedDivisor(b)
  {
    FieldReadsBackCode(cfgr, b);
  }

  /**
   * CPU_GetFrequencyAPB1 as written breaks the round trip from HCLK_DIV4 on:
   * at 72 MHz it divides by 3, 4 and 5 where 4, 8 and 16 are documented.
   */
  lemma Apb1RoundTripFailsFromDiv4(cfgr: bv32)
    ensures Apb1Frequency(WithPpre1(cfgr, HCLK_DIV4), 72_000_000) == 24_000_000
    ensures Apb1Frequency(WithPpre1(cfgr, HCLK_DIV8), 72_000_000) == 18_000_000
    ensures Apb1Frequency(WithPpre1(cfgr, HCLK_DIV16), 72_000_000) == 14_400_000
    ensures 72_000_000 / DocumentedDivisor(HCLK_DIV4) == 18_000_000
  {
    FieldReadsBackCode(cfgr, HCLK_DIV4);
    FieldReadsBackCode(cfgr, HCLK_DIV8);
    FieldReadsBackCode(cfgr, HCLK_DIV16);
  }

  /**
   * CPU_GetFrequencyAPB2 as written returns the APB2 timer clock: after
   * HCLK_DIV2 at 72 MHz it reports 72 MHz where 36 MHz is documented.
   */
  lemma Apb2FrequencyReportsTimerClock(cfgr: bv32, systemCoreClock: nat)
    ensures Apb2Frequency(cfgr, systemCoreClock) == TimerFrequencyIntended(Ppre2Field(cfgr), systemCoreClock)
    ensures Apb2Frequency(WithPpre2(cfgr, HCLK_DIV2), 72_000_000) == 72_000_000
    ensures Apb2FrequencyIntended(WithPpre2(cfgr, HCLK_DIV2), 72_000_000) == 36_000_000
  {
    var f := Ppre2Field(cfgr);
    if f >= 4 {
      ShiftDivisorIsPower(f);
    }
    FieldReadsBackCode(cfgr, HCLK_DIV2);
  }

  /**
   * CPU_GetTimerFrequencyAPB2 as written divides by the offset divisor:
   * after HCLK_DIV4 at 72 MHz it reports 48 MHz where the timers run at 36 MHz.
   */
  lemma Apb2TimerWrongFromDiv4(cfgr: bv32)
    ensures Apb2TimerFrequency(WithPpre2(cfgr, HCLK_DIV4), 72_000_000) == 48_000_000
    ensures Apb2TimerFrequencyIntended(WithPpre2(cfgr, HCLK_DIV4), 72_000_000) == 36_000_000
  {
    FieldReadsBackCode(cfgr, HCLK_DIV4);
    assert Pow2(2) == 4;
  }

  /** The corrected APB2 timer getter reports twice the corrected bus frequency when the prescaler divides. */
  lemma IntendedTimerDoublesBus(cfgr: bv32, b: BusFrequency, systemCoreClock: nat)
    requires b != HCLK_DIV1
    ensures Apb2TimerFrequencyIntended(WithPpre2(cfgr, b), systemCoreClock)
            == 2 * (systemCoreClock / DocumentedDivisor(b))
  {
    FieldReadsBackCode(cfgr, b);
    IntendedRoundTrip(cfgr, b, systemCoreClock);
  }
}
