# MPC55xx / MPC560x MCU driver and flash address codec, in Dafny

This project models the MCU driver of the Arctic Core PowerPC port
(`arch/ppc/mpc55xx/drivers/Mcu.c`). It also models the address-space bit-field macros of the
flash driver header (`arch/ppc/mpc55xx/drivers/flash.h`).

The driver keeps one global record, `Mcu_Global`. The record holds the
initialised flag, the bound configuration, the selected clock setting and
two 32-bit clock-failure counters. The driver has these parts:

- `Mcu_Init` identifies the silicon from the PVR register. A PVR it does not
  know hangs the processor.
- `Mcu_InitClock` checks the selected clock setting with `assert`s and then
  programs the PLL for the chip family.
- Most foreground services are guarded by a development-error check. The
  check reports to Det (the development error tracer) and returns a fixed
  failure value. `Mcu_DeInit`, `McuE_GetSystemClock` and
  `McuE_GetPeripheralClock` have no such check.
- Two interrupt handlers count loss-of-lock and loss-of-clock events.
- `McuE_GetSystemClock` and `McuE_GetPeripheralClock` compute frequencies
  from the live divider fields.

The C file is compiled for one chip at a time through `CFG_*` macros. In the
model the chip is a `Variant` parameter.

How the model is built:

- Hardware reads are parameters: the PVR, the PLL lock bit, the reset status
  registers, the divider and prescaler fields, and `SIMULATOR()`.
- Each service returns an `Effect`. It holds the record afterwards, the Det
  reports the call made, an abstract list of the register actions it
  performed, and its return value.
- A hang is the outcome `Halted` and a failed `assert` is `AssertFailed`.
- `Mcu.Run` plays a sequence of calls, services and interrupts alike, one
  after another.

Modules:

| module | file | contents |
|---|---|---|
| `McuTypes` | `mcu_types.dfy` | variants, the driver record, Det reports, register actions, `uint32` wrap-around |
| `Identify` | `identify.dfy` | the PVR tables, `Mcu_IdentifyCpu`/`Mcu_IdentifyCore` and `Mcu_CheckCpu` |
| `Clock` | `clock.dfy` | `CALC_SYSTEM_CLOCK`, the range checks, the transitional post-divider |
| `Peripheral` | `peripheral.dfy` | the prescaler `switch` with C fall-through, and a reference table |
| `Reset` | `reset.dfy` | reset-cause decoding and the raw reset word |
| `Mcu` | `mcu.dfy` | the services, the interrupt handlers and runs of calls |
| `FlashAddr` | `flash_addr.dfy` | the `ADDR_SPACE*` macros on `bv32` and the `FLASH_OP_*` codes |

## Model

| member | source | states |
|---|---|---|
| `McuTypes.Reject` | arch/ppc/mpc55xx/drivers/Mcu.c:71-82 | A failed `VALIDATE` makes exactly one Det report with the service id and error, performs no register action, leaves the record unchanged and returns the failure value. |
| `McuTypes.PowerOnState` | arch/ppc/mpc55xx/drivers/Mcu.c:88-93 | Before `Mcu_Init` the record is not initialised, holds the default configuration, selects clock setting 0 and has both counters at 0. |
| `Identify.CpuTable` | arch/ppc/mpc55xx/drivers/Mcu.c:150-252 | `cpu_info_list` as built: empty exactly on the MPC5554, at most two entries otherwise. |
| `Identify.CoreTable` | arch/ppc/mpc55xx/drivers/Mcu.c:150-252 | `core_info_list` as built: empty exactly on the MPC5554, at most two entries otherwise. |
| `Identify.FindFrom` | arch/ppc/mpc55xx/drivers/Mcu.c:259-270 | The linear search returns the first index at or after the start whose PVR matches. It returns None exactly when no entry from the start onwards matches. |
| `Identify.Find` | arch/ppc/mpc55xx/drivers/Mcu.c:272-283 | The lookup returns the first matching entry. It returns NULL exactly when the PVR is not in the table. |
| `Identify.CheckCpu` | arch/ppc/mpc55xx/drivers/Mcu.c:285-307 | `Mcu_CheckCpu` hangs exactly when the PVR is missing from the CPU table or from the core table. Otherwise it returns 0. |
| `Identify.CheckCpuAccepts` | arch/ppc/mpc55xx/drivers/Mcu.c:150-252 | The check returns exactly for one PVR per build: E200Z1 on the 5516, E200Z65 on the 5668, the single listed core elsewhere. The MPC5554 build returns for no PVR. |
| `Identify.Mpc5516Z0Halts` | arch/ppc/mpc55xx/drivers/Mcu.c:203-211 | The 5516 core table lists E200Z1 twice. So a Z0 PVR is found in the CPU table but still hangs. |
| `Identify.Mpc5668Z0AndZ1Halt` | arch/ppc/mpc55xx/drivers/Mcu.c:242-250 | The 5668 entry named CORE_E200Z0 holds the Z1 PVR. So both a Z0 and a Z1 PVR hang. |
| `Identify.Mpc5516CoreFirstMatch` | arch/ppc/mpc55xx/drivers/Mcu.c:276-279 | With two identical entries, the core search returns the first one. |
| `Clock.CalcSystemClock` | arch/ppc/mpc55xx/drivers/Mcu.c:36-45 | When the product does not overflow 32 bits, the macro equals the exact quotient of its formula. In every case the result is the wrapped product divided by the divisor, rounded down: times the divisor it is at most the wrapped product, and one more times the divisor exceeds it. |
| `Clock.RangeChecksPass` | arch/ppc/mpc55xx/drivers/Mcu.c:405-425 | The `assert`s on the selected setting: the MPC5516 rules on the 5516, 5554 and 5668, the 5567 rules on the 5567, none on the MPC5633 and the 560x. A setting passing the 5516 rules has an odd post-divider, so the transitional divider is exactly two above it. |
| `Clock.FormulaAsWritten` | arch/ppc/mpc55xx/drivers/Mcu.c:36-45 | The preprocessor picks the `2^rfd` formula exactly for the 5567 and the `2<<rfd` formula exactly for the 560x. Every other build falls into `#else`. |
| `Clock.FormulaOf` | arch/ppc/mpc55xx/drivers/Mcu.c:720-727 | The selection agrees with each part the comment block lists, the 563x in 5567 legacy mode included. It differs from the preprocessor choice only on the MPC5633. |
| `Clock.Mpc5633FormulaMismatch` | arch/ppc/mpc55xx/drivers/Mcu.c:725 | The MPC5633 is the only documented part whose compiled formula differs from its documented one. With 40 MHz, MFD 8, PREDIV 1 and RFD 1 the compiled one gives 240 MHz instead of 120 MHz. |
| `Clock.SystemClockExamples` | arch/ppc/mpc55xx/drivers/Mcu.c:720-727 | Three worked values. 40 MHz, MFD 44, PREDIV 4, RFD 1 gives 240 MHz on the 5516. 40 MHz, MFD 8, PREDIV 1, RFD 1 gives 120 MHz on the 5567. 8 MHz, NDIV 64, IDF 0, ODF 1 gives 128 MHz on a 560x. |
| `Clock.Fmpll16ProductWraps` | arch/ppc/mpc55xx/drivers/Mcu.c:43-44 | A setting the 5516 range checks admit makes the `uint32` product wrap. The result is 162503270 instead of 592 MHz. |
| `Clock.OrOneIsBitwise` | arch/ppc/mpc55xx/drivers/Mcu.c:445 | On 32-bit words C's `x | 1` is `OrOne`'s `x + (1 - x % 2)`, and the increment never wraps. |
| `Clock.TransitionalPostDivider` | arch/ppc/mpc55xx/drivers/Mcu.c:443-445 | `(Pll3 + 1) | 1` is odd, lies strictly above `Pll3` and at most 2 above it, and is `Pll3 + 2` when `Pll3` is odd. |
| `Clock.TransitionalIsLeastOddAbove` | arch/ppc/mpc55xx/drivers/Mcu.c:443-445 | The transitional divider is the smallest odd divider above the final one. |
| `Clock.TransitionalDividerNoOvershoot` | arch/ppc/mpc55xx/drivers/Mcu.c:441-456 | While the PLL locks with the transitional divider, the frequency is never above the final one. |
| `Peripheral.CaseActions` | arch/ppc/mpc55xx/drivers/Mcu.c:759-900 | The statements each case group keeps in the build: every group assigns on the 5516 and 5668, none does on the 5554, 5567 and 5633, and the 560x has nine groups. Of those, exactly the second (PIT, ESCI_A, IIC_A), the fourth (DSPI_B..F), the fifth (ESCI_B..H) and the last (MLB) assign nothing. |
| `Peripheral.RunSwitch` | arch/ppc/mpc55xx/drivers/Mcu.c:759-900 | The switch reads a field only for a peripheral with a case label, and that field is one some group of the build assigns. A peripheral without a label reaches `default`. |
| `Peripheral.CaseGroupOf` | arch/ppc/mpc55xx/drivers/Mcu.c:813-899 | Each peripheral maps to at most one case group of the compiled switch, and that group exists. |
| `Peripheral.FallThrough` | arch/ppc/mpc55xx/drivers/Mcu.c:813-899 | Control entering a group stops at the first group at or after it that assigns a prescaler, with no assigning group skipped. It runs into `default` exactly when no group from the entry onward assigns. |
| `Peripheral.FallThrough560x` | arch/ppc/mpc55xx/drivers/Mcu.c:825-882 | On a 560x build, PIT/ESCI_A/IIC_A fall into the FlexCAN group. DSPI_B..F and ESCI_B..H fall into the LIN group. MLB falls into `default`. |
| `Peripheral.NoFallThrough` | arch/ppc/mpc55xx/drivers/Mcu.c:759-791 | On the 5516 and 5668 every group assigns, so nothing falls through. |
| `Peripheral.OnlyFallThrough` | arch/ppc/mpc55xx/drivers/Mcu.c:813-899 | On the 5554 and 5633 no group assigns, so every entry reaches `default`. |
| `Peripheral.Switch560xByGroup` | arch/ppc/mpc55xx/drivers/Mcu.c:813-899 | The 560x switch reads, for each case group, the field where fall-through lands. |
| `Peripheral.Table560xByGroup` | arch/ppc/mpc55xx/drivers/Mcu.c:813-899 | The 560x lines of the reference table agree group by group with the landing field. |
| `Peripheral.SwitchMatchesTable560x` | arch/ppc/mpc55xx/drivers/Mcu.c:813-899 | On the 560x builds the switch and the reference table give the same prescaler for every peripheral. |
| `Peripheral.SwitchMatchesTable5516` | arch/ppc/mpc55xx/drivers/Mcu.c:813-899 | On the 5516 the switch and the reference table give the same prescaler for every peripheral. |
| `Peripheral.SwitchMatchesTable5668` | arch/ppc/mpc55xx/drivers/Mcu.c:759-792 | On the 5668 the switch and the reference table give the same prescaler for every peripheral. |
| `Peripheral.SwitchMatchesTable` | arch/ppc/mpc55xx/drivers/Mcu.c:754-905 | For every build that compiles a switch, the switch with fall-through selects exactly the field the reference table names. |
| `Peripheral.PeripheralClock` | arch/ppc/mpc55xx/drivers/Mcu.c:800-904 | The 5567 returns the system clock. Elsewhere the result never exceeds the system clock, and the call never hangs. |
| `Peripheral.Prescale` | arch/ppc/mpc55xx/drivers/Mcu.c:902 | `sysClock / (1 << prescaler)` is the C quotient rounded down: times `2^prescaler` it is at most `sysClock`, and one more times `2^prescaler` exceeds `sysClock`. |
| `Peripheral.PeripheralClockByTable` | arch/ppc/mpc55xx/drivers/Mcu.c:800-904 | Off the 5567, the call fails its `assert(0)` exactly for peripherals the table leaves unmapped. Otherwise it is the system clock divided by 2 to the power of the table's field. |
| `Peripheral.Mpc5668Map` | arch/ppc/mpc55xx/drivers/Mcu.c:759-782 | On the 5668, FlexCAN_A..F and DSPI_A..D use LPCLKDIV1, and ESCI_A..F and IIC_A..B use LPCLKDIV0. |
| `Peripheral.Mpc5668MapSingles` | arch/ppc/mpc55xx/drivers/Mcu.c:783-791 | On the 5668, ADC_A uses LPCLKDIV2 and eMIOS uses LPCLKDIV3. DSPI_E reaches `default`. |
| `Peripheral.Mpc560xFallThrough` | arch/ppc/mpc55xx/drivers/Mcu.c:815-895 | On a 560x, PIT, ESCI_A and IIC_A read SC_DC[1] and DSPI_B reads SC_DC[0]. MLB reaches `default`. |
| `Reset.RawValue` | arch/ppc/mpc55xx/drivers/Mcu.c:669-676 | On the 560x the raw word is DES when DES is non-zero and FES otherwise. Elsewhere it is the whole of SIU.RSR. |
| `Reset.DecodeSiu` | arch/ppc/mpc55xx/drivers/Mcu.c:634-654 | The SIU.RSR chain reports "undefined" exactly when no SIU flag is set, and otherwise one of the flagged causes. |
| `Reset.DecodeRgm` | arch/ppc/mpc55xx/drivers/Mcu.c:634-654 | The RGM chain reports "undefined" exactly when no RGM flag is set, and otherwise one of the flagged causes. |
| `Reset.DecodeReason` | arch/ppc/mpc55xx/drivers/Mcu.c:634-654 | The build's decoder reports "undefined" exactly when its registers flag no cause. |
| `Reset.DecodeIsHighestCause` | arch/ppc/mpc55xx/drivers/Mcu.c:634-654 | The first-match chain returns "undefined" exactly when no flag is set. Otherwise it returns a flagged cause, and no flagged cause outranks it (software over watchdog over power-on). |
| `Reset.DecodeDependsOnlyOnCauses` | arch/ppc/mpc55xx/drivers/Mcu.c:634-654 | Two register readings with the same set of flagged causes decode to the same reason. |
| `Reset.SoftwareBeatsWatchdog` | arch/ppc/mpc55xx/drivers/Mcu.c:635-648 | With both the software and the watchdog flag set, the reason is a software reset. |
| `Reset.ExternalReadsAsPowerOn` | arch/ppc/mpc55xx/drivers/Mcu.c:649-650 | An external reset alone reads as a power-on reset. |
| `Reset.RawWordOfReason` | arch/ppc/mpc55xx/drivers/Mcu.c:634-676 | On the 560x a watchdog or power-on reason comes with the DES word. A software reason comes with the FES word only when DES is clear. |
| `Mcu.MctlWords` | arch/ppc/mpc55xx/drivers/Mcu.c:488-490 | The key and the inverted key are 16-bit complements. The four MCTL words written are the keyed requests for RUN0 and RESET. |
| `Mcu.MctlWordFields` | arch/ppc/mpc55xx/drivers/Mcu.c:689-690 | An MCTL word gives back its mode and its key. |
| `Mcu.IsrsAsWritten` | arch/ppc/mpc55xx/drivers/Mcu.c:357-368 | The installation as written: both handlers are installed, and every install is on the loss-of-lock vector. |
| `Mcu.Isrs` | arch/ppc/mpc55xx/drivers/Mcu.c:357-363 | Corrected installation: each handler sits on the vector of its own flag, and both handlers are installed. |
| `Mcu.IsrVectorAsWritten` | arch/ppc/mpc55xx/drivers/Mcu.c:363 | As written, the loss-of-clock handler goes on the loss-of-lock vector, and nothing is installed on the loss-of-clock vector. It differs from the corrected installation in that one action only. |
| `Mcu.InitActions` | arch/ppc/mpc55xx/drivers/Mcu.c:315-370 | Initialisation always calls `Mcu_ConfigureFlash`. A handler is installed exactly when notification is configured on a part other than a 560x. Both handlers then go on the loss-of-lock vector, and nothing is installed on the loss-of-clock vector. |
| `Mcu.Init` | arch/ppc/mpc55xx/drivers/Mcu.c:311-371 | A NULL configuration is rejected with PARAM_CONFIG. A real one hangs exactly when, off the simulator, the PVR is not accepted. Otherwise the call binds the configuration, sets `initRun`, zeroes both counters and keeps the clock setting. Its handlers sit on the loss-of-lock vector only, the loss-of-clock handler included when notification is on (not on a 560x). |
| `Mcu.DeInit` | arch/ppc/mpc55xx/drivers/Mcu.c:375-378 | `Mcu_DeInit` clears `initRun` and nothing else. |
| `Mcu.InitRamSection` | arch/ppc/mpc55xx/drivers/Mcu.c:382-390 | The call returns `E_OK` exactly when initialised and the section is at most `McuRamSectors`. Otherwise it makes the matching report. The record never changes. |
| `Mcu.RamSectionBoundInclusive` | arch/ppc/mpc55xx/drivers/Mcu.c:385 | The section numbered `McuRamSectors` itself is accepted. The next one up is refused. |
| `Mcu.ClockProgramming` | arch/ppc/mpc55xx/drivers/Mcu.c:441-561 | The PLL programming of `Mcu_InitClock` for each family. It is empty exactly on the MPC5633. |
| `Mcu.ClockProgrammingLeavesSetting` | arch/ppc/mpc55xx/drivers/Mcu.c:441-561 | Replaying the actions of `Mcu_InitClock` leaves the PLL holding exactly the setting's three dividers. The exception is the MPC5633, whose PLL is untouched. |
| `Mcu.ClockProgrammingOrder` | arch/ppc/mpc55xx/drivers/Mcu.c:441-495 | On the 5516/5668 the PLL locks with the transitional divider, which is larger than the final one. On the 560x, RUN0 is requested with the key protocol. |
| `Mcu.InitClock` | arch/ppc/mpc55xx/drivers/Mcu.c:394-564 | It reports UNINIT, then PARAM_CLOCK for an index outside the table, with the record unchanged. It fails an `assert` exactly when the range checks fail. On `E_OK` it selects the index and performs exactly the family's PLL programming. That programming is empty exactly on the MPC5633, whose PLL is not touched. Elsewhere the PLL ends with the setting's dividers. On the 5516 and 5668 the lock is awaited under the transitional post-divider, and the final one is written after it. |
| `Mcu.DistributePllClock` | arch/ppc/mpc55xx/drivers/Mcu.c:568-580 | It reports UNINIT, then PLL_NOT_LOCKED, and is accepted exactly when initialised with the lock bit set. |
| `Mcu.GetPllStatus` | arch/ppc/mpc55xx/drivers/Mcu.c:584-624 | Uninitialised: UNDEFINED and a report. Otherwise it reads locked exactly when on the simulator or the lock bit is set, and unlocked otherwise. |
| `Mcu.PllStatusAgreesWithDistribution` | arch/ppc/mpc55xx/drivers/Mcu.c:568-624 | Off the simulator, the status reads locked exactly when distribution is accepted. On the simulator the two can disagree. |
| `Mcu.GetResetReason` | arch/ppc/mpc55xx/drivers/Mcu.c:628-657 | Uninitialised: RESET_UNDEFINED and a report. Otherwise the decoded reason, with the record unchanged. |
| `Mcu.GetResetRawValue` | arch/ppc/mpc55xx/drivers/Mcu.c:661-678 | Uninitialised: the UNINIT_RV value and a report under the reset-reason service id. Otherwise the raw word. |
| `Mcu.PerformReset` | arch/ppc/mpc55xx/drivers/Mcu.c:682-699 | Once initialised, a 560x makes a keyed request for the RESET mode and waits until RESET is current. Other parts set SIU.SRCR.SSR. |
| `Mcu.SetMode` | arch/ppc/mpc55xx/drivers/Mcu.c:703-710 | The call is accepted exactly when initialised, does nothing else, and ignores the mode. |
| `Mcu.OnClockFailure` | arch/ppc/mpc55xx/drivers/Mcu.c:97-128 | On the 560x nothing happens. Elsewhere the source's counter goes up by one modulo 2^32 and its flag is cleared. The other counter and the rest of the record never change. |
| `Mcu.GetSystemClock` | arch/ppc/mpc55xx/drivers/Mcu.c:718-752 | When the product fits 32 bits, the result is the exact clock of the formula the preprocessor selects for the build. In every case it is the wrapped product divided by the divisor, rounded down. It is computed from the live dividers and the current setting's reference frequency. |
| `Mcu.GetSystemClockDocumented` | arch/ppc/mpc55xx/drivers/Mcu.c:720-727 | The same computation with the formula the comment block documents for the part: when the product fits, the exact clock of that formula. |
| `Mcu.SystemClockDocumentedDiffersOn5633` | arch/ppc/mpc55xx/drivers/Mcu.c:36-45 | The compiled and documented system clocks agree on every part but the MPC5633. There 40 MHz, MFD 8, PREDIV 1 and RFD 1 read 240 MHz compiled against 120 MHz documented. |
| `Mcu.GetPeripheralClock` | arch/ppc/mpc55xx/drivers/Mcu.c:754-905 | The 5567 returns the system clock. Otherwise the call fails its `assert` exactly when the table has no field for the peripheral. For a mapped peripheral it returns the system clock divided by `2^prescaler` of the table's field, which is at most the system clock. |
| `Mcu.Step` | arch/ppc/mpc55xx/drivers/Mcu.c:71-82 | One call makes at most one Det report. |
| `Mcu.Run` | arch/ppc/mpc55xx/drivers/Mcu.c:71-82 | A completed run makes at most one report per call. |
| `Mcu.UninitCallsRejected` | arch/ppc/mpc55xx/drivers/Mcu.c:384-705 | Before initialisation, a run of gated services completes. It adds exactly one UNINIT report per call, under that call's service id, and no register action, and the record does not change. |
| `Mcu.PowerOnCallsRejected` | arch/ppc/mpc55xx/drivers/Mcu.c:88-93 | From the power-on record, a run of gated services completes with one UNINIT report per call, no register action and the record unchanged. |
| `Mcu.IsrRun` | arch/ppc/mpc55xx/drivers/Mcu.c:97-128 | A run of `n` interrupts of one kind completes without reports. Off the 560x it clears the flag `n` times. |
| `Mcu.IsrCounts` | arch/ppc/mpc55xx/drivers/Mcu.c:108-127 | `n` interrupts move that source's counter on by `n` modulo 2^32 (not on the 560x). They leave the other counter and the rest of the record alone. |
| `Mcu.IsrKeeps` | arch/ppc/mpc55xx/drivers/Mcu.c:97-128 | Handler calls leave `initRun`, the configuration, the selected setting and the other source's counter unchanged. |
| `Mcu.IsrCounter` | arch/ppc/mpc55xx/drivers/Mcu.c:108-127 | `n` handler calls move their own counter on by `n` modulo 2^32, except on the 560x, where it stays. |
| `Mcu.InitThenClock` | arch/ppc/mpc55xx/drivers/Mcu.c:311-400 | After `Mcu_Init`, `Mcu_InitClock` on a setting that passes the checks succeeds without a report and selects it, with zero counters. |
| `Mcu.DeInitThenClockRefused` | arch/ppc/mpc55xx/drivers/Mcu.c:375-398 | After `Mcu_DeInit`, `Mcu_InitClock` is refused again with UNINIT, and the configuration stays bound. |
| `Mcu.StaleClockSetting` | arch/ppc/mpc55xx/drivers/Mcu.c:339-400 | `Mcu_Init` keeps the previous clock-setting index. After re-initialising with a shorter table, the index can point past its end. |
| `FlashAddr.SpaceGet` | arch/ppc/mpc55xx/drivers/flash.h:26 | `ADDR_SPACE_GET` is bits 8-9, so always below 4. |
| `FlashAddr.SpaceSet` | arch/ppc/mpc55xx/drivers/flash.h:27 | `ADDR_SPACE_SET` puts the low two bits of its argument at bits 8-9 and nothing outside them. |
| `FlashAddr.SectorGet` | arch/ppc/mpc55xx/drivers/flash.h:28 | `ADDR_SPACE_GET_SECTOR` is bits 0-7, so always below 256. |
| `FlashAddr.PartGet` | arch/ppc/mpc55xx/drivers/flash.h:29 | `ADDR_SPACE_GET_PART` is bits 10-11, so always below 4. |
| `FlashAddr.PartSet` | arch/ppc/mpc55xx/drivers/flash.h:30 | `ADDR_SPACE_SET_PART` puts the low two bits of its argument at bits 10-11 and nothing outside them. |
| `FlashAddr.AddrSpace` | arch/ppc/mpc55xx/drivers/flash.h:32-34 | For a sector below 256 the three fields are disjoint, so the OR equals the sum `partition*1024 + space*256 + sector`. |
| `FlashAddr.Decode` | arch/ppc/mpc55xx/drivers/flash.h:26-29 | Every word decodes to fields within their bit ranges. |
| `FlashAddr.FieldsRoundTrip` | arch/ppc/mpc55xx/drivers/flash.h:26-34 | For a sector below 256, each getter recovers its field from an `ADDR_SPACE` word: the sector exactly, the space and partition modulo 4. |
| `FlashAddr.DecodeEncode` | arch/ppc/mpc55xx/drivers/flash.h:26-34 | Decoding an encoded in-range location gives it back. |
| `FlashAddr.EncodeDecode` | arch/ppc/mpc55xx/drivers/flash.h:26-34 | Every 12-bit word is the encoding of its decoding. |
| `FlashAddr.EncodeInjective` | arch/ppc/mpc55xx/drivers/flash.h:32-34 | Different in-range locations encode to different words. |
| `FlashAddr.SettersMask` | arch/ppc/mpc55xx/drivers/flash.h:27-30 | Both setters depend only on the low two bits of their argument. |
| `FlashAddr.NamedSpacesRoundTrip` | arch/ppc/mpc55xx/drivers/flash.h:22-34 | LOW, MID and HIGH, and every space below `ADDR_SPACE_CNT`, round-trip through `ADDR_SPACE` and `ADDR_SPACE_GET`. For every such space the encoded word stays below 4096. |
| `FlashAddr.WideSectorSpills` | arch/ppc/mpc55xx/drivers/flash.h:32-34 | The sector is not masked. Sector 256 in the low space decodes as sector 0 of the mid space. |
| `FlashAddr.LockOpMasked` | arch/ppc/mpc55xx/drivers/flash.h:18-20 | `op & FLASH_OP_MASK` is always LOCK or UNLOCK, and it is UNLOCK exactly for odd `op`. |

## Left out

- Register plumbing is abstracted to `HwAction` values without addresses or bit layouts. This covers the watchdog keys, `ME.RUN`/`RUNPC`/`PCTL`, `SC_DC`, `PSMI`, `CMU_0` and the body of `Mcu_ConfigureFlash` (Mcu.c:911-959). Only the order of the actions and the values that matter are kept: the divider fields and the MCTL words.
- Busy-wait loops (PLL lock, mode transition, current mode) are single `Await*` actions assumed to complete. Their termination depends on hardware timing.
- Hardware readings are parameters fixed for a run: the PVR, the lock bit, the reset status registers, `SIMULATOR()`, the divider and prescaler fields. The model does not follow how the hardware changes them.
- The register actions a call performs before it hangs are not recorded: the 560x watchdog disable before the silicon check. `Halted` carries no trace.
- DEM reporting (`USE_DEM`), the watchdog re-enable under `USE_WDG`, `USE_LDEBUG_PRINTF` and the commented-out debug output are not modelled.
- Interrupt preemption is not modelled. An interrupt handler is one atomic step between two calls.
- `MCU_DEV_ERROR_DETECT` is taken as on and `MCU_PERFORM_RESET_API` as on. With the first one off, the gates vanish.
- Mcu.h and Mcu_Cfg.h are not part of this model. `MCU_GETRESETRAWVALUE_UNINIT_RV` is the parameter `uninitValue`, and the service ids and error codes are datatypes with no numeric values.
- The bit positions of the reset flags in SIU.RSR, RGM.FES and RGM.DES are not modelled. The flags are booleans read alongside the whole word.
- The number of clock settings, `McuClockSettings`, is the length of the settings table.
- The denominator of `CALC_SYSTEM_CLOCK` is exact, while the numerator wraps modulo 2^32. The register field widths keep the C denominator far from overflow.
- Mcu.GetSystemClock: requires the current clock-setting index to lie inside the table. C indexes past the end otherwise (`Mcu.StaleClockSetting` shows that this can happen), and that memory is not modelled.
- Mcu.GetPeripheralClock: requires the same as `Mcu.GetSystemClock`, for the same reason.
- Some identities in the `Peripheral` datatype are named by no build's switch, for example FlexCan G/H, Dspi G/H, Iic C to H and Lin E to H. They reach `default` on every build, and the model follows that.
- Clock.OrOneIsBitwise: states C's `x | 1` on 32-bit words as `OrOne`'s expression `x + (1 - x % 2)`, without converting the word to an integer. Conversion arithmetic between bit-vectors and integers is beyond what the solver proves here.
- Peripheral.Prescale: `1 << prescaler` is a C `int` shift (Mcu.c:794, 902), undefined from 31 up. The model divides by the unbounded `2^prescaler`. The hardware prescaler fields are a few bits wide, so the shift stays far below 31.
- `assert` is taken as enabled (`NDEBUG` undefined): a failed check ends the call as `AssertFailed`. With `NDEBUG` defined, `Mcu_InitClock` would go on past failed range checks (Mcu.c:412-424), and the peripheral `default` path would divide by an uninitialised prescaler (Mcu.c:897-902). Neither continuation is modelled.
- Mcu.ClockProgrammingLeavesSetting: the divider values are written into register bit-fields whose widths are in headers that are not part of this model. Values too wide for a field would be truncated by the hardware (Mcu.c:445, 451-452, 461-463, 506-508, 553-555), so the promise holds only for settings that fit the fields.
- Mcu.InitClock: the same bit-field truncation is not modelled. "The PLL ends with the setting's dividers" assumes each divider fits its field.
- Clock.TransitionalDividerNoOvershoot: the transitional divider `(Pll3 + 1) | 1` is compared untruncated. If it does not fit the RFD field, the hardware holds a truncated value, and the bound is not promised for that case.
- The `Flash_*` prototypes (flash.h:43-49) are declarations without bodies, so they have nothing to model.
- The `cpu_info_t`/`core_info_t` names are kept in the tables but nothing reads them.

## Findings

| source | as written | input that shows it | evidently intended | confidence | as-written member | corrected member |
|---|---|---|---|---|---|---|
| arch/ppc/mpc55xx/drivers/Mcu.c:36-45 | The MPC5633 build matches neither `CFG_MPC5567` nor `CFG_MPC560X`, so it gets the `(mfd+16)/((prediv+1)*(rfd+1))` formula | 40 MHz reference, MFD 8, PREDIV 1, RFD 1: 240 MHz reported | The 5567 legacy-mode formula the comment at line 725 gives, which yields 120 MHz | medium; not executed | `Clock.Mpc5633FormulaMismatch` | `Clock.FormulaOf` |
| arch/ppc/mpc55xx/drivers/Mcu.c:363 | `Mcu_LossOfClock` is installed on `PLL_SYNSR_LOLF`, the vector line 357 already gives `Mcu_LossOfLock` | Any non-560x build with clock-failure notification configured: no handler on the loss-of-clock vector | Installation on `PLL_SYNSR_LOCF`, the flag the handler clears at line 126 | high; not executed | `Mcu.IsrVectorAsWritten` | `Mcu.Isrs` |

For the first finding, `Clock.FormulaAsWritten` is the as-written selection and `Mcu.GetSystemClock` uses it, as the compiled driver does. `Mcu.GetSystemClockDocumented` is the same service on the corrected selection, and `Mcu.SystemClockDocumentedDiffersOn5633` relates the two. For the second, `Mcu.Init` installs through `Mcu.IsrsAsWritten`, as the driver does. `Mcu.Isrs` is the corrected installation, and `Mcu.IsrVectorAsWritten` shows that the two differ in the loss-of-clock install only.
