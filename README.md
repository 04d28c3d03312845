# STM32F1 kernel drivers in Dafny

This project models the hardware-facing core of a small C++ driver layer for
the STM32F103xB (Cortex-M3), and proves properties of that model. It covers
these drivers:

- **CPU driver** (`DRV_CPU`):
  - the clock start-up sequences (HSI, HSE, and the PLL fed from either);
  - the APB1/APB2 prescaler setters and the frequency getters;
  - the three chains that enable, disable and query the clock gate of a peripheral, given its base address.
- **I/O driver** (`DRV_IO`):
  - the port:pin encoding and the port-index helpers;
  - the per-port clock enable;
  - the packing of the `IO_Config` bit-field structure;
  - `IO_PinInit`, which writes the CRL/CRH mode field and ODR;
  - external-interrupt routing through AFIO->EXTICR, and the EXTI line operations.
- **DMA driver** (`DRV_DMA`):
  - the channel index and IRQ lookup;
  - the interrupt-enable writes to CCR, and the ISR checks and IFCR clears;
  - the wait for a free channel;
  - `DMA_Move`.
- **Vector-table relocation** (`DRV_SSR`):
  - `SSR_Relocate` copies the vector table to RAM at 0x2000_0000 and points VTOR at it;
  - `SSR_Allocate` writes one handler into the relocated table.

Registers are plain state:

- Registers the source reads and writes with masks are `bv32` fields.
- The clock-enable registers and the interrupt flag and enable registers are sets of the bit positions that are 1. Lemmas tie each set to the word the driver writes.
- Each peripheral whose registers the driver updates in place is a class whose methods change those fields: `ClockControl` for RCC and FLASH, `GpioPort`, `Afio`, `ExtiLines`, DMA `Channel` and `Controller`, and SSR `Memory`.
- Each method is proved equal to a specification function of the old state. The lemmas about those functions state what the source promises.

Module layout:

| file | module | contents |
|---|---|---|
| `option.dfy` | `Optional` | the Option type |
| `bits.dfy` | `Bits` | bit positions, masks and the sets of 1-bits |
| `cpu_header.dfy` | `CpuConfig` | `DRV_CPU.h`: PLL sources, frequencies, the factor table, bus prescaler codes |
| `rcc.dfy` | `Rcc` | RCC and FLASH register layout, LATENCY encodings |
| `clock_steps.dfy` | `ClockSteps` | each start-up phase as a function, and lemmas on the sequences |
| `bus_frequency.dfy` | `BusClock` | prescaler writes and the four frequency getters |
| `enable_registers.dfy` | `EnableRegisters` | APB1ENR, APB2ENR, AHBENR as sets of open gates |
| `peripheral_gate.dfy` | `PeripheralGate` | the handle-to-gate chains of the three clock functions |
| `cpu.dfy` | `Cpu` | class `ClockControl` |
| `ports.dfy` | `Ports` | port addresses and the port:pin encoding |
| `io_config.dfy` | `IoLayout` | `io_modes` and the `IO_Config` word |
| `exti.dfy` | `Exti` | EXTICR routing, EXTI lines, `IO_SetExtendedIT` |
| `gpio.dfy` | `Gpio` | class `GpioPort`, port clocks, `IO_PinInit` |
| `dma.dfy` | `Dma` | classes `Channel` and `Controller`, `DMA_Move`, the wait |
| `ssr.dfy` | `Ssr` | class `Memory`, `SSR_Relocate`, `SSR_Allocate` |

## Model

| member | source | states |
|---|---|---|
| CpuConfig.PllSourceValue | Inc/DRV_CPU.h:79-81 | the PLL source enumeration has values 0 and 1, and value 1 (the one CPU_StartPLL tests) is exactly the external oscillator |
| CpuConfig.FactorsFor | Inc/DRV_CPU.h:58-64 | each of the five PLL frequencies reads its own row of the factor table, and never the unused sixth row |
| CpuConfig.MultiplierOf | Inc/DRV_CPU.h:58-64 | every PLLMULL code selects a multiplier between 2 and 16 |
| CpuConfig.BusCodesFitPpre | Inc/DRV_CPU.h:110-115 | every BusFrequencies code fits the 3-bit PPRE field; code 0 alone means /1, and a code c of 4 or more documents the divisor 2^(c-3) |
| CpuConfig.FactorsGiveTier | Inc/DRV_CPU.h:58-64 | with the 8 MHz crystal, (HSE / pre-divider) * multiplier of each row is exactly the frequency its enumerator names |
| CpuConfig.FactorRows | Inc/DRV_CPU.h:58-64 | the rows are (/2, x4), (/2, x8), (/2, x9), (/1, x8), (/1, x9), in enumeration order |
| Rcc.WrittenLatency | Src/DRV_CPU.cpp:96-102 | the value the flash phase writes lies inside the LATENCY field |
| Rcc.IntendedLatency | Src/DRV_CPU.cpp:96-102 | the corrected LATENCY value is a defined encoding and gives exactly the wait states the reference manual requires for the PLL frequency |
| ClockSteps.HseStartLatency | Src/DRV_CPU.cpp:18-22 | the wait state CPU_StartHSE adds lies inside the LATENCY field |
| ClockSteps.Ppre1For | Src/DRV_CPU.cpp:88-93 | CPU_StartPLL halves APB1 exactly for the frequencies above 36 MHz, the APB1 limit |
| ClockSteps.HsiStartedSelectsHsi | Src/DRV_CPU.cpp:40-54 | after CPU_StartHSI, HSI is on and ready, SW selects HSI, LATENCY is zero, PWREN is set, and no other bit changed |
| ClockSteps.HseStartedSelectsHse | Src/DRV_CPU.cpp:7-37 | after CPU_StartHSE, HSE and CSS are on and ready, SW and SWS name HSE, LATENCY is zero again, PWREN is set, and no other bit changed |
| ClockSteps.HseStartTakesOneWaitState | Src/DRV_CPU.cpp:18-22 | for the 8 MHz crystal CPU_StartHSE takes the one-wait-state branch |
| ClockSteps.SourceSelectedSetsPllSource | Src/DRV_CPU.cpp:62-67 | after source selection PLLSRC is set exactly when the source is HSE; PLLON, PLLRDY and the CFGR bits outside SW, SWS and PLLSRC keep their values |
| ClockSteps.TuningWritesFactors | Src/DRV_CPU.cpp:72-86 | the tuning writes put the multiplier code into PLLMULL, set PLLXTPRE exactly when the crystal is halved, and set HPRE and PPRE2 to /1 |
| ClockSteps.TuningWritesPrescalers | Src/DRV_CPU.cpp:82-94 | the tuning writes set all ADCPRE bits and put /2 or /1 into PPRE1; every CFGR bit outside the tuned fields is kept |
| ClockSteps.FactorsFitPllmull | Inc/DRV_CPU.h:58-64 | every multiplier code of the table lies inside the PLLMULL field |
| ClockSteps.PllTunedWritesFactors | Src/DRV_CPU.cpp:72-94 | the tuning phase writes the factor-table row of the frequency into PLLMULL and PLLXTPRE and the frequency's PPRE1 code; CR, ACR and the other CFGR bits are untouched |
| ClockSteps.FlashWrite | Src/DRV_CPU.cpp:96-102 | clearing PRFTBE and writing LATENCY leaves the written bits in LATENCY; every bit outside PRFTBE and LATENCY is kept |
| ClockSteps.FlashTimedWritesLatency | Src/DRV_CPU.cpp:96-102 | the flash phase turns the prefetch buffer off and, except at 16 MHz, leaves the written value in LATENCY; CR and CFGR are untouched |
| ClockSteps.PllRunningSelectsPll | Src/DRV_CPU.cpp:104-109 | the last phase sets PLLON and PLLRDY and makes SW and SWS name the PLL; the rest of CFGR and the flash timing are kept |
| ClockSteps.PllStartOrder | Src/DRV_CPU.cpp:57-112 | the PLL is stopped when tuning begins and still stopped when PLLON is set; by then CFGR's tuning bits and ACR already hold their final values |
| ClockSteps.PllStartTurnsOscillatorsOn | Src/DRV_CPU.cpp:57-112 | after CPU_StartPLL the PLL and HSI are on and ready, HSE too when it is the source, and PWREN is set |
| ClockSteps.PllStartConfiguresPll | Src/DRV_CPU.cpp:57-112 | after CPU_StartPLL, CFGR holds the factor row, the source, the bus prescalers and the PLL as system clock; no other CFGR bit changed |
| ClockSteps.TuneEntryHasNoWaitStates | Src/DRV_CPU.cpp:57-70 | both oscillator start-ups leave LATENCY zero before tuning begins, with the rest of ACR as on entry |
| ClockSteps.FlashTimedFromZeroLatency | Src/DRV_CPU.cpp:96-102 | starting from zero wait states, the flash phase leaves exactly the written LATENCY value, at 16 MHz too, with the prefetch buffer off |
| ClockSteps.PllStartSetsFlashTiming | Src/DRV_CPU.cpp:57-112 | after CPU_StartPLL the prefetch buffer is off and LATENCY holds the written value; the other ACR bits are kept |
| ClockSteps.WrittenLatencyMissesWaitStates | Src/DRV_CPU.cpp:96-102 | as written, 72 MHz ends with an undefined LATENCY encoding and 36 MHz with the wrong number of wait states |
| ClockSteps.PllSourceWrittenWhilePllRuns | Src/DRV_CPU.cpp:62-70 | as written, when the PLL runs on entry, PLLSRC is rewritten while the PLL is still running |
| ClockSteps.SourceSelectedKeepsPllStopped | Src/DRV_CPU.cpp:62-67 | source selection does not start the PLL or select it as system clock |
| ClockSteps.FlashTimedIntendedSetsLatency | Src/DRV_CPU.cpp:96-102 | the corrected flash phase leaves the defined encoding for the frequency, keeping CR and CFGR |
| ClockSteps.IntendedPllWritesWhileStopped | Src/DRV_CPU.cpp:57-94 | in the corrected order PLLSRC and all tuning bits are written while the PLL is stopped |
| ClockSteps.IntendedPllStartTimesFlash | Src/DRV_CPU.cpp:96-102 | the corrected sequence ends with a defined LATENCY holding exactly the wait states the system clock requires |
| ClockSteps.IntendedPllStartSelectsPll | Src/DRV_CPU.cpp:57-112 | the corrected sequence still selects the PLL, fed from the requested source |
| BusClock.Ppre1Write | Src/DRV_CPU.cpp:123-126 | setting the APB1 prescaler puts its code into PPRE1 and keeps every other CFGR bit, PPRE2 among them |
| BusClock.Ppre2Write | Src/DRV_CPU.cpp:150-153 | setting the APB2 prescaler puts its code into PPRE2 and keeps every other CFGR bit, PPRE1 among them |
| BusClock.Ppre1Field | Src/DRV_CPU.cpp:131 | the PPRE1 field read by the getters is below 8 |
| BusClock.Ppre2Field | Src/DRV_CPU.cpp:158 | the PPRE2 field read by the getters is below 8 |
| BusClock.PrescalersIndependent | Src/DRV_CPU.cpp:123-153 | setting one bus's prescaler never changes the field the other bus's getters read |
| BusClock.OffsetDivisor | Src/DRV_CPU.cpp:131-134 | the offset divisor of the getters is at least 1, and at least 2 for a dividing code |
| BusClock.ShiftDivisor | Src/DRV_CPU.cpp:141-145 | the shift divisor of the getters is at least 1, and at least 2 for a dividing code |
| BusClock.Apb1Frequency | Src/DRV_CPU.cpp:129-136 | CPU_GetFrequencyAPB1 never exceeds SystemCoreClock and equals it when APB1 is not divided |
| BusClock.Apb1TimerFrequency | Src/DRV_CPU.cpp:139-147 | CPU_GetTimerFrequencyAPB1 never exceeds SystemCoreClock and equals it when APB1 is not divided |
| BusClock.Apb2Frequency | Src/DRV_CPU.cpp:156-164 | CPU_GetFrequencyAPB2 never exceeds SystemCoreClock and equals it when APB2 is not divided |
| BusClock.Apb2TimerFrequency | Src/DRV_CPU.cpp:167-175 | CPU_GetTimerFrequencyAPB2 never exceeds SystemCoreClock and equals it when APB2 is not divided |
| BusClock.GettersFitUint32 | Src/DRV_CPU.cpp:129-175 | none of the four getters overflows a uint32_t when SystemCoreClock fits one |
| BusClock.ShiftDivisorIsPower | Src/DRV_CPU.cpp:141-145 | `2 << (code - 4)` is 2^(code - 3): 2, 4, 8, 16 for the codes 4 to 7 |
| BusClock.FieldReadsBackCode | Src/DRV_CPU.cpp:123-164 | the field each setter writes reads back as the code it was given |
| BusClock.IntendedRoundTrip | Inc/DRV_CPU.h:110-115 | after setting HCLK_DIVn, the corrected getters of both buses report SystemCoreClock / n |
| BusClock.Apb1TimerIsIntended | Src/DRV_CPU.cpp:139-147 | CPU_GetTimerFrequencyAPB1 as written is the timer clock: the bus clock at /1, twice it otherwise |
| BusClock.Apb1RoundTripForDiv1And2 | Src/DRV_CPU.cpp:129-136 | CPU_GetFrequencyAPB1 as written reports SystemCoreClock / n after HCLK_DIV1 and HCLK_DIV2 |
| BusClock.Apb1RoundTripFailsFromDiv4 | Src/DRV_CPU.cpp:129-136 | at 72 MHz, CPU_GetFrequencyAPB1 as written reports 24, 18 and 14.4 MHz for /4, /8 and /16 instead of 18, 9 and 4.5 MHz |
| BusClock.Apb2FrequencyReportsTimerClock | Src/DRV_CPU.cpp:156-164 | CPU_GetFrequencyAPB2 as written reports the APB2 timer clock: 72 MHz where the bus runs at 36 MHz |
| BusClock.Apb2TimerWrongFromDiv4 | Src/DRV_CPU.cpp:167-175 | at 72 MHz with /4, CPU_GetTimerFrequencyAPB2 as written reports 48 MHz instead of 36 MHz |
| BusClock.IntendedTimerDoublesBus | Src/DRV_CPU.cpp:167-175 | the corrected APB2 timer getter reports twice the corrected bus frequency whenever the prescaler divides |
| EnableRegisters.Put | Src/DRV_CPU.cpp:178-320 | writing one enable register sets it to the value and leaves the other two as they were |
| EnableRegisters.SetGate | Src/DRV_CPU.cpp:178-320 | `REG \|= bit` opens the gate and leaves every other gate as it was |
| EnableRegisters.ClearGate | Src/DRV_CPU.cpp:323-465 | `REG &= ~bit` closes the gate and leaves every other gate as it was |
| EnableRegisters.GateWritesIdempotent | Src/DRV_CPU.cpp:178-465 | opening an open gate or closing a closed one changes nothing |
| EnableRegisters.ClearUndoesSet | Src/DRV_CPU.cpp:178-465 | closing a gate that was opened from closed restores the registers |
| PeripheralGate.HandleRoundTrip | Src/DRV_CPU.cpp:178-320 | the chains recognise the base address of every peripheral as that peripheral |
| PeripheralGate.GateOwnerInvertsGateOf | Src/DRV_CPU.cpp:178-320 | the gate of every peripheral leads back to that peripheral |
| PeripheralGate.GatesDistinct | Src/DRV_CPU.cpp:178-320 | two peripherals share a gate exactly when they are the same peripheral |
| PeripheralGate.PeripheralAt | Src/DRV_CPU.cpp:178-610 | the if-else chain of the three gate functions only ever names the peripheral whose base address is the handle |
| PeripheralGate.UnknownHandle | Src/DRV_CPU.cpp:178-320 | an unrecognised handle is the base address of no peripheral |
| PeripheralGate.ClockStatus | Src/DRV_CPU.cpp:468-610 | CPU_PeripheralClockStatus is true only for a recognised handle |
| PeripheralGate.EnableWrite | Src/DRV_CPU.cpp:178-320 | CPU_PeripheralClockEnable writes nothing for an unrecognised handle |
| PeripheralGate.EnableResult | Src/DRV_CPU.cpp:178-320 | CPU_PeripheralClockEnable returns true exactly for a recognised handle |
| PeripheralGate.DisableWrite | Src/DRV_CPU.cpp:323-465 | CPU_PeripheralClockDisable writes nothing for an unrecognised handle |
| PeripheralGate.DisableResult | Src/DRV_CPU.cpp:323-465 | CPU_PeripheralClockDisable as written returns true only for a recognised handle |
| PeripheralGate.DisableSucceeded | Inc/DRV_CPU.h:224-229 | the documented result is true exactly for a recognised handle, and then the peripheral's gate is closed |
| PeripheralGate.DisableReportsFailureOnLastGate | Src/DRV_CPU.cpp:323-465 | disabling TIM2 when it is the only clocked APB1 peripheral closes its gate, yet the function as written returns false |
| PeripheralGate.EnableOpensOnlyItsGate | Src/DRV_CPU.cpp:178-320 | enabling a peripheral opens its gate and leaves every other gate, of any register, as it was |
| PeripheralGate.DisableClosesOnlyItsGate | Src/DRV_CPU.cpp:323-465 | disabling a peripheral closes its gate and leaves every other gate, of any register, as it was |
| PeripheralGate.OtherPeripheralsUnaffected | Src/DRV_CPU.cpp:178-465 | enabling or disabling one peripheral leaves the clock status of every other peripheral unchanged |
| PeripheralGate.StatusReadsBackGate | Src/DRV_CPU.cpp:468-610 | the status chain reads the gate the other two chains write: on after enable, off after disable |
| PeripheralGate.UnknownHandleChangesNothing | Src/DRV_CPU.cpp:178-610 | for an unrecognised handle all three functions return false and no register changes |
| Cpu.ClockControl.constructor | Src/DRV_CPU.cpp:7 | the controller starts from the given register values |
| Cpu.ClockControl.StartHSI | Src/DRV_CPU.cpp:40-54 | performs exactly the CPU_StartHSI step, leaving APB2ENR and AHBENR alone |
| Cpu.ClockControl.StartHSE | Src/DRV_CPU.cpp:7-37 | performs exactly the CPU_StartHSE step, leaving APB2ENR and AHBENR alone |
| Cpu.ClockControl.StartPLL | Src/DRV_CPU.cpp:57-112 | performs exactly the CPU_StartPLL sequence, leaving APB2ENR and AHBENR alone |
| Cpu.ClockControl.SelectSource | Src/DRV_CPU.cpp:62-67 | performs the source-selection phase |
| Cpu.ClockControl.HaltPll | Src/DRV_CPU.cpp:69-70 | clears PLLON and waits for PLLRDY to drop; nothing else changes |
| Cpu.ClockControl.TunePll | Src/DRV_CPU.cpp:72-94 | performs the tuning phase for the frequency; only CFGR changes |
| Cpu.ClockControl.WriteFactors | Src/DRV_CPU.cpp:72-80 | writes PLLMULL and PLLXTPRE; only CFGR changes |
| Cpu.ClockControl.WritePrescalers | Src/DRV_CPU.cpp:82-94 | writes HPRE, PPRE2, ADCPRE and PPRE1; only CFGR changes |
| Cpu.ClockControl.TimeFlash | Src/DRV_CPU.cpp:96-102 | performs the flash phase; only ACR changes |
| Cpu.ClockControl.RunPll | Src/DRV_CPU.cpp:104-109 | turns the PLL on and switches the system clock to it; only CR and CFGR change |
| Cpu.ClockControl.SetFrequencyAPB1 | Src/DRV_CPU.cpp:123-126 | writes the code into PPRE1; only CFGR changes |
| Cpu.ClockControl.SetFrequencyAPB2 | Src/DRV_CPU.cpp:150-153 | writes the code into PPRE2; only CFGR changes |
| Cpu.ClockControl.GetFrequencyAPB1 | Src/DRV_CPU.cpp:129-136 | returns the as-written APB1 frequency, which never exceeds SystemCoreClock |
| Cpu.ClockControl.GetTimerFrequencyAPB1 | Src/DRV_CPU.cpp:139-147 | returns the APB1 timer clock, which never exceeds SystemCoreClock |
| Cpu.ClockControl.GetFrequencyAPB2 | Src/DRV_CPU.cpp:156-164 | returns the as-written APB2 frequency, which never exceeds SystemCoreClock |
| Cpu.ClockControl.GetTimerFrequencyAPB2 | Src/DRV_CPU.cpp:167-175 | returns the as-written APB2 timer frequency, which never exceeds SystemCoreClock |
| Cpu.ClockControl.OpenGate | Src/DRV_CPU.cpp:178-320 | opens one gate, changes no other gate, and the register is then non-zero |
| Cpu.ClockControl.CloseGate | Src/DRV_CPU.cpp:323-465 | closes one gate, changes no other gate, and reports whether the register is non-zero afterwards |
| Cpu.ClockControl.PeripheralClockEnable | Src/DRV_CPU.cpp:178-320 | opens the gate of the peripheral at the handle; true exactly for a recognised handle |
| Cpu.ClockControl.PeripheralClockDisable | Src/DRV_CPU.cpp:323-465 | closes the gate of the peripheral at the handle and returns the as-written result |
| Cpu.ClockControl.PeripheralClockStatus | Src/DRV_CPU.cpp:468-610 | true exactly when the handle is recognised and its peripheral's gate is open; nothing changes |
| Ports.GetPortIndex | Src/DRV_IO.cpp:8-10 | the uint32_t port index is below 2^22 for every address, including one that wraps below GPIOA |
| Ports.PortField | Inc/DRV_IO.h:127 | the port byte of an encoded pin is below 256 |
| Ports.PinField | Inc/DRV_IO.h:140-155 | the pin byte of an encoded pin is below 256 |
| Ports.EncodedFields | Inc/DRV_IO.h:133-155 | `__PORTx \| __PINn` holds the port in the second byte and the pin in the first, both recoverable |
| Ports.GetPortIndexOfBase | Src/DRV_IO.cpp:8-10 | GetPortIndex inverts the port-block address for every index whose block fits the address space |
| Ports.PortIndexRoundTrip | Src/DRV_IO.cpp:14-25 | IO_GetPort(IO_PortIndex(p)) is p for the block of every port index below 256 |
| Ports.PortIndex | Src/DRV_IO.cpp:14-19 | IO_PortIndex puts the port index, truncated to 8 bits, into the second byte and leaves the low byte zero |
| Ports.GetPort | Src/DRV_IO.cpp:21-25 | IO_GetPort returns the block whose port index is the port byte of its argument |
| Ports.GetPortRoundTrip | Src/DRV_IO.cpp:14-25 | IO_PortIndex(IO_GetPort(e)) is the port byte of e, shifted into the second byte |
| Ports.PortBlocks | Inc/DRV_IO.h:70 | GPIOA to GPIOE are the blocks of indices 0 to 4, GPIO_SIZE apart |
| IoLayout.ModeCodeInjective | Inc/DRV_IO.h:202-219 | every io_modes value is distinct: reading back a mode's code gives the mode |
| IoLayout.ModeCodeSurjective | Inc/DRV_IO.h:202-219 | every four-bit value is the code of exactly one mode |
| IoLayout.InputModesHaveZeroModeBits | Inc/DRV_IO.h:202-219 | a mode is an input exactly when the two MODE bits of its code are 00 |
| IoLayout.FieldsFillTheWord | Inc/DRV_IO.h:42-47 | the six field widths add up to 32, with Reserved at bit 7 and Pin as the top byte |
| IoLayout.PackedFields | Inc/DRV_IO.h:34-37 | each header mask selects exactly its field of a packed word |
| IoLayout.DecodePack | Inc/DRV_IO.h:57-64 | decoding a packed word gives back the packed fields |
| IoLayout.DecodeFields | Inc/DRV_IO.h:57-64 | decoding reads each field through its mask |
| IoLayout.FieldsPack | Inc/DRV_IO.h:57-64 | packing the fields of any word gives the word back |
| IoLayout.MasksSelectFields | Inc/DRV_IO.h:34-37 | the mode, interrupt, rise and fall masks and the full Pin field read back the fields of an encoded configuration |
| IoLayout.DecodeEncode | Inc/DRV_IO.h:57-64 | decoding an encoded configuration gives it back |
| IoLayout.EncodeDecode | Inc/DRV_IO.h:57-64 | encoding a decoded word gives the word back: the fields cover all 32 bits |
| IoLayout.PinMaskKeepsHighNibble | Inc/DRV_IO.h:38 | IO_MASK_PIN as defined keeps only the top four of the eight Pin bits |
| IoLayout.PinMaskLosesPinNumbers | Inc/DRV_IO.h:38 | every pin 0 to 15 reads as 0 through IO_MASK_PIN, so pin 5 does not read back as 5 |
| Exti.GetIrqNumber | Src/DRV_IO.cpp:178-194 | lines 0 to 4 get their own IRQ, 5 to 9 share EXTI9_5, and every larger value gets EXTI15_10 |
| Exti.Selector | Src/DRV_IO.cpp:102-109 | the port selector of a line is below 16 |
| Exti.GetExtendedIT | Src/DRV_IO.cpp:102-109 | IO_GetExtendedIT returns the line's port selector in the second byte and the line number in the first |
| Exti.LineCode | Src/DRV_IO.cpp:102-109 | a four-bit selector packed above a four-bit line number keeps both |
| Exti.RoutedReadsBack | Src/DRV_IO.cpp:113-145 | after routing a line to a port, the line reads back that port and its own number |
| Exti.RoutedKeepsOtherLines | Src/DRV_IO.cpp:113-145 | routing one line leaves every other line's selector unchanged |
| Exti.RoutingEvicts | Src/DRV_IO.cpp:113-145 | routing a line twice is the same as routing it only the second time |
| Exti.LineBitsOfMask | Src/DRV_IO.cpp:113-175 | the line's bit set is the set of 1-bits of the mask the driver writes |
| Exti.ArmedLine | Src/DRV_IO.cpp:113-145 | setting up a line unmasks it, makes its rising and falling triggers follow Rise and Fall, and touches no other line |
| Exti.ReleasedLine | Src/DRV_IO.cpp:148-160 | resetting a line clears its IMR, EMR, RTSR and FTSR bits, keeps PR, and touches no other line |
| Exti.ReleaseUndoesArm | Src/DRV_IO.cpp:113-160 | resetting a line after setting it up is the same as only resetting it |
| Exti.UnmaskUndoesMask | Src/DRV_IO.cpp:163-170 | unmasking after masking restores the registers when the line was unmasked |
| Exti.LineWritesTouchOneBit | Src/DRV_IO.cpp:163-175 | mask, unmask and clear-pending change no other line, and mask changes no IMR bit but the line's |
| Exti.HighPinsNameNoLine | Src/DRV_IO.cpp:113-175 | for a pin number of 16 or more the line operations change nothing |
| Exti.Afio.constructor | Src/DRV_IO.cpp:113 | the AFIO block starts from the given selectors |
| Exti.Afio.Route | Src/DRV_IO.cpp:116-127 | EXTICR then holds the routed selectors |
| Exti.ExtiLines.constructor | Src/DRV_IO.cpp:113 | the EXTI block starts from the given registers |
| Exti.ExtiLines.Arm | Src/DRV_IO.cpp:129-138 | the EXTI registers are then the set-up line's |
| Exti.ExtiLines.ResetExtendedIT | Src/DRV_IO.cpp:148-160 | the EXTI registers are then the released line's |
| Exti.ExtiLines.MaskExtendedIT | Src/DRV_IO.cpp:163-165 | the EXTI registers are then masked for the line |
| Exti.ExtiLines.UnmaskExtendedIT | Src/DRV_IO.cpp:168-170 | the EXTI registers are then unmasked for the line |
| Exti.ExtiLines.ClearPendingExtendedIT | Src/DRV_IO.cpp:173-175 | the line's PR bit is written |
| Exti.SetExtendedIT | Src/DRV_IO.cpp:113-145 | AFIOEN is set, the line is routed to the port's index, and the line is set up; no other RCC register changes |
| Gpio.PortGateIsIopBit | Src/DRV_IO.cpp:35-60 | port indices 0 to 4 have a clock bit, bit k + 2 of APB2ENR; other indices have none |
| Gpio.PortClockBitsOfPort | Src/DRV_IO.cpp:28-31 | enabling the clock of port k's block sets exactly IOPkEN for A to E and nothing otherwise |
| Gpio.PinWrittenPlacesMode | Src/DRV_IO.cpp:64-98 | the pin's mode field of CRL or CRH holds the written mode, and its other fields and the other register are kept |
| Gpio.PinWrittenDrivesOdr | Src/DRV_IO.cpp:64-98 | the pin's ODR bit ends up set exactly for pull-up; no other ODR bit changes |
| Gpio.PullUpIsPullDownWithOdr | Src/DRV_IO.cpp:64-98 | pull-up is written as pull-down plus the pin's ODR bit |
| Gpio.InterruptsOnlyForDigitalInputs | Src/DRV_IO.cpp:64-98 | an EXTI line is set up exactly for a pin below 16 with Int set and a floating, pull-down or pull-up input |
| Gpio.GpioPort.constructor | Src/DRV_IO.cpp:64 | the port starts with the given address and registers |
| Gpio.GpioPort.WritePin | Src/DRV_IO.cpp:64-98 | the port registers then hold the pin's mode and pull direction |
| Gpio.GpioPort.WriteMode | Src/DRV_IO.cpp:71-89 | the pin's mode field of CRL or CRH then holds the mode |
| Gpio.PortClockOn | Src/DRV_IO.cpp:35-60 | sets the clock bit of the port in the second byte and returns its address, or 0 for an unknown port; no other RCC register changes |
| Gpio.PortClockEnable | Src/DRV_IO.cpp:28-31 | sets the clock bit of the port at the address; no other RCC register changes |
| Gpio.PinInit | Src/DRV_IO.cpp:64-98 | clocks the port, writes the pin, and routes and arms its EXTI line exactly when an interrupt is requested for a digital input |
| Dma.ChannelBlocks | Src/DRV_DMA.cpp:6-27 | the seven channel blocks are 0x14 bytes apart from channel 1 |
| Dma.GetChannelIndex | Src/DRV_DMA.cpp:6-27 | the index is a channel index 0 to 6 or the "no channel" value |
| Dma.ChannelIndexOfBase | Src/DRV_DMA.cpp:6-27 | each channel block's index is that channel's index |
| Dma.ChannelIndexNamesBase | Src/DRV_DMA.cpp:6-27 | a recognised index names the block it came from, and "no channel" is returned exactly for a handle that is no channel block |
| Dma.GetChannelIRQn | Src/DRV_DMA.cpp:31-50 | the IRQ is -1 exactly for a handle that is no channel, and one of the seven DMA1 channel IRQs otherwise |
| Dma.ChannelIrqs | Src/DRV_DMA.cpp:31-50 | channel i+1 interrupts on IRQ 11+i, and every other handle yields -1 |
| Dma.ChannelIrqsDistinct | Src/DRV_DMA.cpp:31-50 | two handles share an IRQ only if they are the same channel or both unrecognised |
| Dma.GroupBitsOfMask | Src/DRV_DMA.cpp:73-112 | the flag bits of a channel are the 1-bits of the shifted mask the driver computes |
| Dma.CheckInterrupts | Src/DRV_DMA.cpp:73-91 | DMA_CheckInterrupts is true only for a recognised channel, with some ISR bit set and some flag requested |
| Dma.CheckReadsOwnGroup | Src/DRV_DMA.cpp:73-91 | the check is true exactly when ISR holds one of the requested flags in the channel's own group |
| Dma.CheckIgnoresOtherChannels | Src/DRV_DMA.cpp:73-91 | flags of other channels never change the check's answer |
| Dma.CheckUnknownChannel | Src/DRV_DMA.cpp:73-91 | a handle that is no channel reports no flag |
| Dma.ClearWritesOwnGroup | Src/DRV_DMA.cpp:95-112 | clearing writes the requested flags of the channel's group and no bit of another group |
| Dma.ClearAllWritesWholeGroup | Src/DRV_DMA.cpp:116-118 | the one-argument clear writes all four clear bits of the channel's group |
| Dma.MaskValues | Inc/DRV_DMA.h:35-38 | DMA_IFCR_ALL is a whole group, and DMA_CCR_ALL is the 0x0E mask of the interrupt-enable writes |
| Dma.InterruptsSetTouchesOnlyEnables | Src/DRV_DMA.cpp:54-59 | the interrupt-enable write sets or clears the requested enables and keeps every other CCR bit |
| Dma.SecondMoveRejected | Src/DRV_DMA.cpp:130-144 | after an accepted move the channel is enabled, so a second move is refused |
| Dma.MoveProfile | Inc/DRV_DMA.h:44 | a move writes CCR as EN, TCIE, TEIE and MINC, with no direction, circular, peripheral-increment, size or memory-to-memory bit |
| Dma.Channel.constructor | Src/DRV_DMA.cpp:54 | the channel starts with the given address and registers |
| Dma.Channel.SetInterruptFlags | Src/DRV_DMA.cpp:54-59 | CCR then holds the interrupt-enable write; the other channel registers are kept |
| Dma.Channel.EnableInterrupts | Src/DRV_DMA.cpp:62-64 | the write with status true |
| Dma.Channel.DisableInterrupts | Src/DRV_DMA.cpp:67-69 | the write with status false |
| Dma.Controller.constructor | Src/DRV_DMA.cpp:95 | the controller starts with the given ISR and IFCR |
| Dma.Controller.ClearInterrupts | Src/DRV_DMA.cpp:95-112 | IFCR then holds the channel's cleared flags; ISR is kept |
| Dma.Controller.ClearAllInterrupts | Src/DRV_DMA.cpp:116-118 | IFCR then holds the channel's whole group; ISR is kept |
| Dma.Move | Src/DRV_DMA.cpp:130-144 | accepted exactly when the channel exists, is disabled and both pointers are non-null; the channel is then armed, and otherwise nothing changes |
| Dma.SourceAddresses | Inc/DRV_DMA.h:139-148 | a transfer reads one address per counted byte |
| Dma.DestinationAddresses | Inc/DRV_DMA.h:139-148 | a transfer writes one address per counted byte |
| Dma.Block | Inc/DRV_DMA.h:139-148 | a block of n bytes has n addresses |
| Dma.MoveIsNoCopy | Src/DRV_DMA.cpp:130-144 | as written, a move waits for peripheral requests and reads CPAR for every byte, so no block of two or more bytes is copied |
| Dma.CopyArmedCopiesBlock | Inc/DRV_DMA.h:49 | with the memory-to-memory profile the channel copies the whole block, and a second move is still refused |
| Dma.WaitEnds | Src/DRV_DMA.cpp:122-126 | DMA_WaitFreeChannel as written never holds a caller whose channel is disabled, whose handle is no channel, or whose ISR is clear |
| Dma.WaitEndsWhileBusy | Src/DRV_DMA.cpp:122-126 | as written, on an enabled channel the wait ends exactly while the transfer is not complete |
| Dma.ChannelFreeReadsTcif | Inc/DRV_DMA.h:132-136 | the documented wait ends exactly when the channel is disabled or its own transfer-complete flag is set |
| Dma.TcifOfChannel | Src/DRV_DMA.cpp:73-91 | checking TCIF of channel i reads bit 4i+1 of ISR |
| Ssr.SlotIndex | Src/DRV_SSR.cpp:258-264 | the word SSR_Allocate writes lies in the address space |
| Ssr.SlotIndexWraps | Src/DRV_SSR.cpp:258-264 | SSR_Allocate writes word 0x0800_0000 + k of the address space, modulo its size, and exactly that word when it does not wrap |
| Ssr.Relocated | Src/DRV_SSR.cpp:244-254 | the relocated memory has the size of the address space |
| Ssr.RelocatedCopies | Src/DRV_SSR.cpp:244-254 | each of the first n table words has its copy at the RAM base, and every other word keeps its value |
| Ssr.RelocatedKeepsSource | Src/DRV_SSR.cpp:248-250 | the copy never writes below the RAM base, so the source table is intact throughout |
| Ssr.AllocatedWritesOneWord | Src/DRV_SSR.cpp:258-264 | SSR_Allocate changes exactly the slot's word, which then holds the handler |
| Ssr.RelocateThenAllocate | Inc/DRV_SSR.h:95-109 | after relocating n vectors and allocating slot k < n, slot k holds the handler, the other slots their copies, and memory outside the table is unchanged |
| Ssr.CopyWrites | Src/DRV_SSR.cpp:248-250 | the copy makes one write per vector, none for a count of zero or less |
| Ssr.Apply | Src/DRV_SSR.cpp:244-264 | an access keeps the size of memory |
| Ssr.Replay | Src/DRV_SSR.cpp:244-264 | a sequence of accesses keeps the size of memory |
| Ssr.CopyWritesOnlyWords | Src/DRV_SSR.cpp:248-250 | the copy only writes words |
| Ssr.ReplayCopyWrites | Src/DRV_SSR.cpp:248-250 | carrying out the copy's writes in order produces the relocated memory |
| Ssr.VtorWrittenAfterCopy | Src/DRV_SSR.cpp:244-254 | VTOR is written once, after a DMB that follows every copy write, and the memory at that point is the relocated memory |
| Ssr.Memory.constructor | Src/DRV_SSR.cpp:244 | memory starts with the given words and VTOR, with nothing logged |
| Ssr.Memory.Relocate | Src/DRV_SSR.cpp:244-254 | memory is then relocated, VTOR holds 0x2000_0000, and the accesses are the copy, DMB, the VTOR write and DSB |
| Ssr.Memory.CopyVectors | Src/DRV_SSR.cpp:248-250 | memory is then relocated by the loop, with its writes logged in order; VTOR is kept |
| Ssr.Memory.Allocate | Src/DRV_SSR.cpp:258-264 | memory then holds the handler in the slot's word, VTOR is kept, and the accesses are that write, DMB and DSB |

## Left out

- Calls into the NVIC are not modelled: enabling the RCC interrupt in CPU_StartHSE, and the NVIC calls of IO_SetExtendedIT and IO_ResetExtendedIT. Their effect is outside the registers modelled here.
- CPU_GetFrequency and SystemCoreClockUpdate are not part of this model. The getters take SystemCoreClock as a parameter.
- CPU_InitializeWatchdog, CPU_CheckWatchdog, CPU_KickWatchdog, CPU_SetPriorityIRQn, CPU_Reset and CPU_Crc32 are not part of this model. They are outside the clock, I/O, DMA and vector-table core.
- Every busy-wait on a hardware ready flag is a single step that ends with the flag in its final state. No timing or interleaving with the hardware is modelled.
- Only the STM32F103xB branches of the conditional chains are modelled. The connectivity-line (CL) variants, DMA2 and other devices are left out.
- Interrupts and concurrent register access are not modelled. Every operation runs to completion alone.
- EXTI PR and DMA IFCR are write-1-to-clear in hardware. The model records the bits the driver writes, as an OR into the register, and does not model the hardware clearing the matching flags.
- Exti.LineWritesTouchOneBit: its clear-pending part holds of the OR model only. `EXTI->PR |= bit` (Src/DRV_IO.cpp:174) is a read-modify-write: on hardware it writes back a 1 for every line pending at that moment, so it also clears every other pending line.
- Exti.ExtiLines.ClearPendingExtendedIT: follows the write above, so it states the bit written into PR, not that the pending flag goes away.
- Lines of 32 or more, where the C shift is undefined, are not modelled. For the line-bit operations (Exti.ExtiLines.Arm, ResetExtendedIT, MaskExtendedIT, UnmaskExtendedIT and ClearPendingExtendedIT) a pin number of 16 to 31 names no line and changes nothing, because the driver casts the bit to 16 bits.
- Exti.SetExtendedIT: requires a pin below 16. The source checks nothing, and for a pin of 16 or more it writes `AFIO->EXTICR[pin/4]` past the end of the four-word array, which has no defined result. IO_PinInit, its caller in the driver, returns before this for such pins (Src/DRV_IO.cpp:73).
- Exti.GetExtendedIT: requires a pin below 16, for the same reason: for a pin of 16 or more the source reads `AFIO->EXTICR[pin/4]` out of bounds.
- Exti.Afio.Route: requires a pin below 16, as Exti.SetExtendedIT does, since it models the same EXTICR write, which for a pin of 16 or more falls outside the four-word array.
- IO_PinConfig and IO_Pinout are not part of this model.
- The SVC and exception trampolines of DRV_SSR.cpp (lines 9-237) are not part of this model. They are assembly and compiler glue.
- Gpio.GpioPort.WritePin: the CRL/CRH clear and set are one model step. The transient value between the two writes is not observable in the model.
- Dma.WaitEndsWhileBusy: DMA_WaitFreeChannel is modelled as the predicate stating when its loop ends, not as a loop method. Its body is a busy-wait on hardware that nothing else in the model changes.
- Ssr.Memory.Relocate: requires nVectors to be at most 0x0800_0000, which the source does not check. Larger counts make the copy overlap the table it reads and overflow `i << 2` in `int`.
- Ssr.Memory.CopyVectors: same bound on nVectors as Ssr.Memory.Relocate.
- Address 0 is modelled as ordinary memory, distinct from the RAM copy. Boot-time aliasing of the vector table is not modelled.
- DMB and DSB appear only as entries in the access log. Their ordering semantics are expressed by the log order alone.

## Findings

| source | as written | input that shows it | evidently intended | confidence | as-written member | corrected member |
|---|---|---|---|---|---|---|
| Src/DRV_CPU.cpp:129-136 | CPU_GetFrequencyAPB1 divides by `2 + (code - 4)`, giving 2, 3, 4 and 5 | SystemCoreClock 72 MHz with HCLK_DIV4 reports 24 MHz | SystemCoreClock / 4 = 18 MHz, the documented HCLK / 4 | not executed | BusClock.Apb1RoundTripFailsFromDiv4 | BusClock.IntendedRoundTrip |
| Src/DRV_CPU.cpp:156-164 | CPU_GetFrequencyAPB2 doubles the quotient when the prescaler divides, which is the timer clock | 72 MHz with HCLK_DIV2 reports 72 MHz | the APB2 bus clock, 36 MHz | not executed | BusClock.Apb2FrequencyReportsTimerClock | BusClock.IntendedRoundTrip |
| Src/DRV_CPU.cpp:167-175 | CPU_GetTimerFrequencyAPB2 uses the offset divisor `2 + (code - 4)` | 72 MHz with HCLK_DIV4 reports 48 MHz | twice the bus clock, 36 MHz | not executed | BusClock.Apb2TimerWrongFromDiv4 | BusClock.IntendedTimerDoublesBus |
| Src/DRV_CPU.cpp:323-465 | CPU_PeripheralClockDisable returns the truth value of the whole register after clearing the bit | TIM2 the only peripheral clocked on APB1: the gate closes and false is returned | true when the peripheral was found and disabled | not executed | PeripheralGate.DisableReportsFailureOnLastGate | PeripheralGate.DisableSucceeded |
| Src/DRV_CPU.cpp:96-102 | the single-bit masks FLASH_ACR_LATENCY_2 and FLASH_ACR_LATENCY_1 are ORed into LATENCY | Pll72MHz ends with LATENCY 100 (reserved), Pll36MHz with two wait states | encodings 010 for 48-72 MHz and 001 for 24-48 MHz | not executed | ClockSteps.WrittenLatencyMissesWaitStates | ClockSteps.IntendedPllStartTimesFlash |
| Src/DRV_CPU.cpp:62-70 | PLLSRC is cleared and set before PLLON is cleared | CPU_StartPLL entered with the PLL running | stop the PLL before writing its source | not executed | ClockSteps.PllSourceWrittenWhilePllRuns | ClockSteps.IntendedPllWritesWhileStopped |
| Src/DRV_DMA.cpp:122-126 | the loop runs while the TCIF check is true | an enabled channel with TCIF clear: the wait returns at once; with TCIF set it spins | wait while the transfer is not complete | not executed | Dma.WaitEndsWhileBusy | Dma.ChannelFreeReadsTcif |
| Inc/DRV_IO.h:38 | IO_MASK_PIN is 0xF000_0000, four bits of the eight-bit Pin field | pin 5 read through the mask gives 0 | the whole Pin field, 0xFF00_0000 | not executed | IoLayout.PinMaskLosesPinNumbers | IoLayout.DecodeEncode |
| Src/DRV_DMA.cpp:130-144 | DMA_Move writes the receive profile: no MEM2MEM and no PINC | any move of two or more bytes waits for peripheral requests and reads only CPAR | a memory-to-memory copy, the profile DMA_CCR_MOVE_BYTES describes | not executed | Dma.MoveIsNoCopy | Dma.CopyArmedCopiesBlock |
