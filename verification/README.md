# radioNano calibration routine and channel tables, in Dafny

This project models two parts of the radioNano receiver-controller firmware.

**The oscillator calibration routine** (`radioNanov1/cal.h`). The user powers up while holding VF/CH.
The routine sets the Si5351 CLK0 output to a 10 MHz reference, reads the stored correction from EEPROM
address 1000 and lets the rotary encoder adjust it. Each encoder edge adds or subtracts the current step
and hands `calvalue * 100` to the Si5351 driver. STEP cycles the step size 1 → 10 → 100 → 1000 → 1.
VF/CH writes the correction back to EEPROM. The routine never returns; it is left by turning the radio off.

**The default channel memory** (`radioNanov1/radioNano.h`). Two parallel constant tables of 150 entries
hold a frequency in hertz and a mode code (0 CW-L, 1 CW-U, 2 LSB, 3 USB, 4 AM). They are laid out
bank-major: 3 banks of 50 channels.

Files:

- `wrappers.dfy`: module `Wrappers`, an `Option` datatype.
- `int32.dfy`: module `Word`. It defines the `int32_t`/AVR `long` range and `Wrap`, the two's-complement
  reduction the target applies on overflow.
- `cal_model.dfy`: module `CalModel`. The routine is a state machine on a value `CalState` with fields
  `calvalue`, `stepSize`, the EEPROM record, and the last `set_correction` and `set_freq` arguments.
  There is one function per event: `EnterRoutine`, `LoadCal`, `EncoderEdge`, `PressStep`, `PressSelect`
  and `PowerOff`. `Apply` dispatches a single `Event` to them, and `Run` applies a sequence of events.
- `cal_routine.dfy`: module `CalRoutine`. Class `Calibrator` holds the globals as fields, and its
  methods update them in place as `setCal` and the branches of the `calibrate_osc` loop do. Each
  method's contract ties the new fields to the matching `CalModel` function.
- `cal_properties.dfy`: module `CalProperties`. Lemmas about runs of events: the step-size invariant,
  the four-press cycle, exact ± step per edge, the driver tracking the correction, save-and-reload,
  and the absence of any bound on the correction.
- `channel_table.dfy`: module `ChannelTable`. The two tables are written out literally, each bank as
  channels 1-25 followed by channels 26-50. It also has bank/channel ↔ index conversion, a `Lookup`,
  and lemmas about the table contents.

Behaviour of the code that the model keeps as written:

- The "unset" sentinel is the literal `0xffff` (65535) at `cal.h:79`. It is not the all-ones 32-bit
  word. A freshly erased EEPROM reads back -1, and the load keeps -1 unchanged (`LoadSentinel`).
  A saved correction of exactly 65535 comes back as 0 (`SaveThenReload`, `SavedValueReloads`).
- The step size is reset only by the global initialiser at `cal.h:37`, i.e. by a power cycle.
  `calibrate_osc` never resets it. Because the routine never returns, a power cycle is the only way to
  re-enter, and the model resets the step size there (`PowerOff`).
- On entry the routine waits for VF/CH to be *released* (`cal.h:72-75`) before loading.
- The load does not call `set_correction`, so right after entry the driver may hold a stale
  correction until the first encoder edge (`LoadLeavesDriverStale`). The interrupt is armed before
  the load (`cal.h:64`), so edges can arrive before it; `Enter` and `Load` are therefore separate events.

## Model

| member | source | states |
|---|---|---|
| Word.Wrap | radioNanov1/cal.h:36 | the result is an int32 congruent to the input modulo 2^32, and equals the input whenever that fits in an int32 |
| CalModel.DriverArg | radioNanov1/cal.h:57 | the 32-bit `calvalue * 100` handed to `set_correction` equals the true product exactly when abs(calvalue) <= 21474836 |
| CalModel.PowerUp | radioNanov1/cal.h:36-37 | power-up: `calvalue` is 0 (zero-initialised global), `stepSIZE` is 1, the stored record is kept, and nothing has been sent to the driver |
| CalModel.NextStep | radioNanov1/cal.h:100-102 | a valid step size maps to a different valid step size, and it decreases exactly when it was 1000 |
| CalModel.LoadedValue | radioNanov1/cal.h:78-79 | the loaded value differs from the stored one exactly when the stored one is 65535, and it is 0 exactly when the stored one is 0 or 65535 |
| CalModel.EnterRoutine | radioNanov1/cal.h:64-70 | entry sets CLK0 to 10 MHz ×100 and changes nothing else |
| CalModel.LoadCal | radioNanov1/cal.h:77-81 | the load sets the correction from the record (replacing only 65535, by 0) and changes nothing else, not even the driver correction |
| CalModel.EncoderEdge | radioNanov1/cal.h:39-59 | pulse high leaves the correction unchanged; pulse low subtracts the step (direction low) or adds it (direction high), exactly when in int32 range and modulo 2^32 otherwise; step, record and CLK0 are unchanged; afterwards the driver holds `calvalue * 100` |
| CalModel.PressStep | radioNanov1/cal.h:99-113 | STEP sets the step size to `NextStep` of the old one (×10, back to 1 past 1000), so a valid step stays valid and changes; the correction, the record and the driver are unchanged |
| CalModel.PressSelect | radioNanov1/cal.h:88-98 | VF/CH stores exactly the current correction and leaves the correction, step size and driver unchanged |
| CalModel.PowerOff | radioNanov1/cal.h:11-13 | a power cycle keeps only the EEPROM record: the correction is back at 0, the step size back at 1, and nothing has been sent to the driver |
| CalModel.Apply | radioNanov1/cal.h:87-115 | one event of the polling loop or the encoder interrupt: only a VF/CH press changes the EEPROM record, and it stores the current correction |
| CalProperties.RunAppend | radioNanov1/cal.h:87-115 | running two event sequences in turn equals running their concatenation |
| CalProperties.ApplyPreservesInv | radioNanov1/cal.h:100-102 | no single event takes the step size out of {1, 10, 100, 1000} |
| CalProperties.RunPreservesInv | radioNanov1/cal.h:37 | from a valid state, every sequence of events keeps the step size in {1, 10, 100, 1000} |
| CalProperties.StepCycle | radioNanov1/cal.h:100-102 | STEP cycles 1 → 10 → 100 → 1000 → 1, with period exactly four |
| CalProperties.FourStepPresses | radioNanov1/cal.h:100-113 | four STEP presses return the whole state, correction and EEPROM included, to where it was |
| CalProperties.EdgesKeepStepAndStore | radioNanov1/cal.h:43-48 | any sequence of encoder edges leaves the step size, the record and CLK0 unchanged |
| CalProperties.UpEdges | radioNanov1/cal.h:46-47 | n up-edges add exactly n steps while the result fits in an int32, and leave the driver holding `calvalue * 100` |
| CalProperties.DownEdges | radioNanov1/cal.h:43-44 | n down-edges subtract exactly n steps while the result fits in an int32, and leave the driver holding `calvalue * 100` |
| CalProperties.UnitStepReached | radioNanov1/cal.h:100-102 | from any valid step size, at most three STEP presses bring it to 1 without touching the correction |
| CalProperties.PathTo | radioNanov1/cal.h:43-47 | the path to a target correction consists of STEP presses and encoder edges only |
| CalProperties.ReachAnyCorrection | radioNanov1/cal.h:44-47 | no bound is enforced: from any valid state, STEP presses and edges reach every int32 correction, with the driver following it |
| CalProperties.SyncedUntilLoad | radioNanov1/cal.h:57 | once the driver holds `calvalue * 100`, it keeps doing so through edges, STEP and VF/CH presses until the next load or power cycle |
| CalProperties.LoadLeavesDriverStale | radioNanov1/cal.h:64-81 | entry, then an encoder edge before the load, then the load leave the driver holding a correction other than `calvalue * 100` |
| CalProperties.LoadSentinel | radioNanov1/cal.h:78-79 | the sentinel is 65535, not the erased word -1; a stored 65535 loads as 0; a stored -1 (erased EEPROM) loads as -1; every other value loads unchanged |
| CalProperties.RecordKeptWithoutSave | radioNanov1/cal.h:90 | any run of events without a VF/CH press leaves the EEPROM record unchanged |
| CalProperties.SavedValueReloads | radioNanov1/cal.h:78-90 | after a save, any events without another VF/CH press (power cycles, entry, edges before the load, STEP) and then a load give back the saved correction (0 if it was 65535) |
| CalProperties.SaveThenReload | radioNanov1/cal.h:90 | save, power-cycle, enter and load give back the saved correction (0 if it was 65535), with the step size back at 1 |
| CalProperties.ThreeUpEdgesAtStepTen | radioNanov1/cal.h:46-57 | from 0 at step 10, three up-edges give 30 and the driver receives 3000 |
| CalProperties.SentinelThenDownEdge | radioNanov1/cal.h:43-44 | a stored 65535, then one down-edge at the power-up step 1, gives -1 and the driver receives -100 |
| CalProperties.DriverArgOverflows | radioNanov1/cal.h:57 | past abs(calvalue) = 21474836 the 32-bit product wraps to the wrong sign |
| CalRoutine.Calibrator.constructor | radioNanov1/cal.h:36-37 | power-up: correction 0, step 1, the given EEPROM record, nothing sent to the driver |
| CalRoutine.Calibrator.Enter | radioNanov1/cal.h:64-70 | sets CLK0 to the 10 MHz reference as `EnterRoutine` does, and keeps correction, step and record |
| CalRoutine.Calibrator.Load | radioNanov1/cal.h:78-79 | the correction becomes the record, except that 65535 becomes 0; step, record and driver unchanged (as `LoadCal`) |
| CalRoutine.Calibrator.EncoderEdge | radioNanov1/cal.h:39-59 | updates in place as `EncoderEdge`: exact ± step when in range, unchanged with pulse high, and the driver set to `calvalue * 100` |
| CalRoutine.Calibrator.PressStep | radioNanov1/cal.h:100-102 | the step becomes `NextStep` of the old one; correction, record and driver unchanged; the invariant is kept |
| CalRoutine.Calibrator.PressSelect | radioNanov1/cal.h:89-90 | the record becomes the current correction; correction, step and driver unchanged |
| CalRoutine.SentinelSession | radioNanov1/cal.h:78-90 | a session on a sentinel record that turns down once and saves stores -1 and has sent -100 to the driver |
| ChannelTable.ModeCode | radioNanov1/radioNano.h:154 | every mode has a code in 0..4 |
| ChannelTable.DecodeMode | radioNanov1/radioNano.h:154 | a code stands for a mode exactly when it is in 0..4 |
| ChannelTable.ModeCodeRoundTrip | radioNanov1/radioNano.h:154 | decoding a mode's code gives the mode back, and encoding a decoded code in 0..4 gives the code back |
| ChannelTable.SlotIndex | radioNanov1/radioNano.h:6 | (bank, channel), both from 1, maps to an index below 150 whose quotient by 50 is bank-1 and whose remainder is channel-1 |
| ChannelTable.SlotOf | radioNanov1/radioNano.h:155 | every index below 150 is the index of a valid (bank, channel) |
| ChannelTable.SlotOfByBank | radioNanov1/radioNano.h:6 | indices 0-49, 50-99 and 100-149 are channels 1-50 of banks 1, 2 and 3 |
| ChannelTable.SlotRoundTrip | radioNanov1/radioNano.h:6 | SlotOf inverts SlotIndex |
| ChannelTable.SlotIndexInjective | radioNanov1/radioNano.h:6 | distinct slots have distinct indices |
| ChannelTable.TableSizes | radioNanov1/radioNano.h:6-155 | both tables hold exactly 150 entries, 3 banks of 50 |
| ChannelTable.BankFreq | radioNanov1/radioNano.h:6-151 | each of the three banks of the frequency table holds 50 channels |
| ChannelTable.BankMode | radioNanov1/radioNano.h:155-191 | each of the three banks of the mode table holds 50 channels |
| ChannelTable.Lookup | radioNanov1/radioNano.h:6-191 | a lookup succeeds only for banks 1-3 and channels 1-50, and the mode it returns is the one coded for that channel in its bank |
| ChannelTable.Bank1FreqFacts | radioNanov1/radioNano.h:9-58 | bank 1 frequencies are non-negative int32 values, and zero exactly from channel 26 on |
| ChannelTable.Bank2FreqFacts | radioNanov1/radioNano.h:63-116 | every bank 2 frequency is positive and fits an int32 |
| ChannelTable.Bank3FreqFacts | radioNanov1/radioNano.h:121-150 | bank 3 frequencies are zero exactly from channel 2 on |
| ChannelTable.Bank1ModeFacts | radioNanov1/radioNano.h:157-166 | every bank 1 mode code is in 0..4 |
| ChannelTable.Bank2ModeFacts | radioNanov1/radioNano.h:169-178 | bank 2 channels 1-3 have code 4 (AM), all others code 3 (USB) |
| ChannelTable.Bank3ModeFacts | radioNanov1/radioNano.h:181-190 | every bank 3 mode code is 4 (AM) |
| ChannelTable.FreqOfBank1 | radioNanov1/radioNano.h:8-58 | channel c+1 of bank 1 is entry c of `defaultFreq` |
| ChannelTable.FreqOfBank2 | radioNanov1/radioNano.h:62-116 | channel c+1 of bank 2 is entry 50+c of `defaultFreq` |
| ChannelTable.FreqOfBank3 | radioNanov1/radioNano.h:120-150 | channel c+1 of bank 3 is entry 100+c of `defaultFreq` |
| ChannelTable.ModeOfBank1 | radioNanov1/radioNano.h:156-166 | channel c+1 of bank 1 is entry c of `defaultMode` |
| ChannelTable.ModeOfBank2 | radioNanov1/radioNano.h:168-178 | channel c+1 of bank 2 is entry 50+c of `defaultMode` |
| ChannelTable.ModeOfBank3 | radioNanov1/radioNano.h:180-190 | channel c+1 of bank 3 is entry 100+c of `defaultMode` |
| ChannelTable.TablesWellFormed | radioNanov1/radioNano.h:6-191 | every code is in 0..4; every frequency is a non-negative int32, zero exactly at bank 1 channels 26-50 and bank 3 channels 2-50; bank 3 is all AM |
| ChannelTable.LabelledEntries | radioNanov1/radioNano.h:9-121 | the entries the comments label (chan 01/12/14/23/25 of bank 1, ch 01 and 50 of bank 2, chan 01 of bank 3) are at the positions and hold the values the comments say |
| ChannelTable.WwvChannels | radioNanov1/radioNano.h:63-65 | bank 2 channels 1-3 are 5, 10 and 15 MHz, all AM |
| ChannelTable.SixtyMetreChannels | radioNanov1/radioNano.h:13-17 | bank 1 channels 5-9 lie in 5330500..5403500 Hz and are USB |
| ChannelTable.SixtyMetreEntries | radioNanov1/radioNano.h:13-17 | the same on the raw bank-1 entries at 0-based indices 4-8 (channels 5-9): frequencies in 5330500..5403500 Hz, mode code 3 |
| ChannelTable.LookupTotal | radioNanov1/radioNano.h:6-191 | every slot (bank 1-3, channel 1-50) holds a channel whose frequency is a non-negative int32; the frequency is zero exactly at bank 1 channels 26-50 and bank 3 channels 2-50; every bank-3 channel is AM |
| ChannelTable.UtilityBankModes | radioNanov1/radioNano.h:169-178 | bank 2 is AM for WWV (channels 1-3) and USB everywhere else |
| ChannelTable.AmateurSidebandConvention | radioNanov1/radioNano.h:157-161 | a programmed bank-1 sideband channel is USB in the 60 m band, and otherwise LSB exactly below 10 MHz |
| ChannelTable.ProgrammedBank1Sidebands | radioNanov1/radioNano.h:9-33 | the same convention on the raw bank-1 entries at 0-based indices 0-24 (channels 1-25) |
| ChannelTable.LookupCoversBank1 | radioNanov1/radioNano.h:8-58 | the lookup of bank 1, channel i+1 gives entry i of both tables |
| ChannelTable.LookupCoversBank2 | radioNanov1/radioNano.h:62-116 | the lookup of bank 2, channel i-49 gives entry i of both tables |
| ChannelTable.LookupCoversBank3 | radioNanov1/radioNano.h:120-150 | the lookup of bank 3, channel i-99 gives entry i of both tables |
| ChannelTable.LookupCoversTables | radioNanov1/radioNano.h:6-155 | every table entry is what Lookup returns for its (bank, channel): the frequency and the mode code |

## Left out

- CalModel.Run: the firmware's event order is not enforced. In `calibrate_osc` entry happens once, only encoder edges can come between entry (interrupt armed at cal.h:64) and the single load at cal.h:78, and STEP and VF/CH presses follow only after the load. `Run` accepts any order, including a VF/CH press before the load, a second load, or an edge before entry; for example `[Enter, SelectPress, Load]` overwrites a stored 5 with the power-up 0, which the firmware cannot do. The universal lemmas cover every order, so they also hold for the firmware's runs. The existential lemmas (`ReachAnyCorrection`, `UnitStepReached`) are meant from states after the load.
- LCD output (`lcd.clear`, `setCursor`, `print`, the "Cal Stored" and "CAL 10.0000 Mhz" banners): display only, not modelled.
- Si5351 driver: only the arguments of `set_correction` and of `set_freq` on CLK0 are recorded. The PLL-input selector `SI5351_PLL_INPUT_XO` is not recorded, and the driver's own behaviour is a foreign library.
- EEPROM: one int32 record at address 1000. The byte layout of `EEPROM.get`/`EEPROM.put` and wear are not modelled. An erased record is represented by its int32 reading, -1.
- `digitalRead`, `delay` and debounce timing are hardware I/O. The release waits (cal.h:49-52, 72-75, 92-95) and the `while(1)` polling loop (cal.h:87-115) become one method call per discrete event.
- `attachInterrupt`, `detachInterrupt`, `interrupts()` and the interleaving of the handler with the polling loop are concurrency. Each encoder edge is an atomic event. Edges lost while the handler busy-waits are simply events that do not occur. One consequence: a STEP press is atomic in the model, so `RunPreservesInv` never sees a step of 10000; in the firmware `stepSIZE` is not `volatile`, and an edge that arrives between cal.h:101 and cal.h:102 may add 10000, depending on the code the compiler generates.
- CalModel.EncoderEdge: `setCal` reads the pulse and direction pins twice (once per `if`); the model samples each pin once per edge, so it does not capture a level change between the two reads.
- Signed overflow of `calvalue ± stepSIZE` and `calvalue * 100` is undefined in C. The model takes the two's-complement wrap the AVR target produces.
- `stepSIZE` is a 16-bit AVR `int`. Its width is not modelled: from any reachable value (at most 1000) the product `stepSIZE * 10` is at most 10000 and fits.
- What the host sketch does at power-up (choosing between calibration, menu and normal operation) and any other writer of EEPROM address 1000 are not part of this model.
- `radioNanov1/menu.h` (`menu` and the unused `menuitems` label table) is not part of this model: it only clears the LCD and waits for MODE/RIT to be released.
