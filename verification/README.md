# scrapyard-core domain model in Dafny

This project models the pure domain layer of scrapyard-core. scrapyard-core is a Rust library that reads a JSON descriptor of a microcontroller and builds a queryable device model from it. The model covers the following parts:

- **Pins** (`pin.dfy`, module `PinModel`). There are five pin kinds: NC, IO, BOOT, NRST and POWER. An I/O pin carries alternate-function state: a reset flag, a label, its signal list and the index of the selected signal. A builder turns a descriptor type string into a pin.
- **Pin registry** (`pins.dfy`, module `PinRegistry`). It holds the device's pins in declaration order. `find_pin` searches them by exact pin name, or by a substring of an I/O pin's alternate signals.
- **Package classifier** (`package.dfy`, module `PackageModel`). It splits a string such as `LQFP48` into a family code and a pin count, and looks the family up in a fixed table.
- **Memory regions** (`memory.dfy`) and **peripheral records** (`peripheral.dfy`).
- **Device finishing** (`mcu.dfy`, module `Device`). This turns the deserialised `MCU` into the finished `MCUConf`. Each IP block not named "GPIO" becomes a disabled, unconfigured peripheral.
- **Build manifest** (`cargo.dfy`, module `CargoManifest`). It holds the Rust target triple for each core, plus the manifest record and its updates.

Shared helpers are in `wrappers.dfy` (modules `Wrappers`, `Ints` and `Seqs`) and `text.dfy` (module `Text`). The helpers cover:

- `Option`/`Result`;
- the `u8`/`u16`/`u32` ranges;
- `Iterator::position`;
- the greedy prefix match a `[class]*` regex group makes;
- decimal numerals;
- `str::contains`.

Modelling conventions:

- Rust's mutating methods (`&mut self`) become functions that return the updated value. Their contracts say which fields change and that the rest stay as they were.
- Both `unwrap` panics in `Package::new` are modelled as an explicit `Failure`: `Failure(Empty)` for a missing count and `Failure(PosOverflow)` for a count that does not fit in `u16`.
- A panic that only signals a caller's mistake is modelled as a `requires`. This covers the `u32` overflow in `Memory::end` and the out-of-range index in `IOPin::current_signal`.
- The IOPin field `label` is called `alias` here, because `label` is a Dafny keyword. The functions keep the source names (`SetLabel`).
- Getters that only return a stored field are datatype destructors: `SemVer::get_major`, `Dependency::get_name`, `IOPin::signals`, `is_reset`, `label`, `Pins::pins`. `Pins::new` is the `Pins` constructor.

Behaviour worth noting:

- **Missing count.** `Package::new` on a string with no digit run (`""`, `"LQFP"`) panics through `parse().unwrap()`; the count does not default to 0 (the unit test `package_fail` is `#[should_panic]`). The model returns `Failure(Empty)`.
- **Package in `MCU::finish`.** `MCU::finish` does not classify a package string. The deserialised `MCU` already holds a `Package`, and `finish` moves it across unchanged. The classifier is modelled as the separate `Classify` (`Package::new`).
- **Selection miss.** On a miss, `select_signal` clears the current selection. It does not keep the old one.
- **`find_alternate_pins`.** It is a stub. It builds a list, drops it, and returns unit.

## Model

| member | source | states |
|---|---|---|
| PinModel.Finish | src/pin.rs:31-84 | The type string picks the kind: "NC"/"BOOT"/"Reset"/"Power"/"I/O" give NC/BOOT/NRST/POWER/IO, and any other string gives NC (each as an iff). Name and position are copied. An I/O pin starts reset, with an empty label and the supplied signals (or none). It keeps the requested index only if signals were supplied and the index is below their count. Its selection is always in range. |
| PinModel.FinishSelectionExamples | src/pin.rs:11-29 | `NewBuilder` (`PinBuilder::new`) starts with no signals and no selection; `WithSignals` (`PinBuilder::signals`) supplies both. Built with no signals, an I/O pin has none and no selection. With two signals, index 0 is kept and index 2 is dropped. |
| PinModel.Reset | src/pin.rs:102-104 | Sets the reset flag. Label, signals and current selection are unchanged. |
| PinModel.SetLabel | src/pin.rs:110-116 | Replaces the label. The reset flag, signals and selection are unchanged. |
| PinModel.SelectSignal | src/pin.rs:122-135 | Returns true iff the signal is in the list. On a hit, current is the index of the first exact match. On a miss, current is cleared. Signals, label and reset are unchanged. The resulting selection is in range whatever the previous one was. |
| PinModel.CurrentSignal | src/pin.rs:137-142 | Needs an in-range selection (otherwise the indexing panics). Returns a signal exactly when one is selected, and that signal is the entry at the selected index. |
| PinModel.SelectThenCurrentSignal | src/pin.rs:122-142 | After `select_signal(s)`, `current_signal` is `s` if `s` was offered, and nothing otherwise, whatever was selected before. |
| PinModel.SelectSignalTestCases | src/pin.rs:289-334 | On the signals Input, Output, EXTI: selecting "Output" answers true and makes it current. Selecting "Missing" answers false and clears the earlier selection. |
| PinModel.SelectSignalIdempotent | src/pin.rs:122-135 | Selecting the same signal a second time changes nothing. |
| PinModel.NameAndPositionAreFields | src/pin.rs:171-189 | `Name` (`Pin::name`) and `PositionOf` (`Pin::position`) return the pin's own fields, for all five kinds. |
| PinModel.Params | src/pin.rs:191-196 | Returns the I/O state exactly for IO pins, and that state is the pin's own. |
| PinModel.UpdateParams | src/pin.rs:198-203 | Mutating through `params_mut` replaces an IO pin's state with the updated one and keeps its name and position. A non-IO pin comes back unchanged. |
| PinRegistry.FindPin | src/pins.rs:22-42 | Returns indices that are in range and strictly increasing, so each pin is reported once, in ascending order. An index is returned iff the pin's name equals the query or the pin is IO and one of its signals contains the query as a substring. A non-IO pin matches only by exact name. No match gives the empty list. |
| PinRegistry.FindPinSample | src/pins.rs:22-42 | On a small pin list (a supply pin and two I/O pins with USART1 signals): searching "USART1" gives [1, 2] through signal substrings, and searching "VDD" gives [0] by exact name. |
| PinRegistry.FindPinAnswerUnique | src/pins.rs:22-42 | Two ascending, in-range index lists that both name exactly the matching pins are equal, so the search answer is fully determined. |
| PinRegistry.SignalHit | src/pins.rs:29-36 | The `position(contains)` scan over an I/O pin's signals succeeds iff some signal has the query as a substring. |
| PinRegistry.AlternateScan | src/pins.rs:44-56 | The list `find_alternate_pins` builds is the ascending IO pins with a signal containing the query. The caller's index is shadowed and plays no part. The method then discards the list. `FindAlternatePins` (`find_alternate_pins`) runs `AlternateScan` and drops the result. |
| Text.ContainsIsSubstring | src/pins.rs:31 | The left-to-right `contains` scan succeeds iff the query occurs at some offset of the signal (case-sensitive; the empty query occurs everywhere). |
| Seqs.StrictlyIncreasingUnique | src/pins.rs:25-41 | Two strictly increasing index lists with the same members are equal. |
| PackageModel.FromCode | src/package.rs:28-39 | The lookup keeps the count, and gives `Unknown` iff the code is not one of the nine family codes. A known code gives the variant written with that same code. |
| PackageModel.CodeOfPackage | src/package.rs:28-39 | Every family code is made of letters, and the lookup table maps each code back to the variant written with it. |
| PackageModel.Classify | src/package.rs:19-40 | The empty string panics on an empty count. |
| PackageModel.ClassifySplit | src/package.rs:21-39 | For letters, then a non-empty digit run, then a tail that does not start with a digit: a count up to 65535 gives the looked-up family with that count, and a larger count panics with overflow. |
| PackageModel.ClassifyMissingCount | src/package.rs:21-26 | Letters followed by nothing, or by a character that is neither a letter nor a digit, panic on an empty count. |
| PackageModel.ClassifyRoundTrip | src/package.rs:19-66 | Every package is recovered by classifying its family code followed by its pin count in decimal (`Unknown` has the empty code). |
| PackageModel.ClassifyLqfp48 | src/package.rs:75-82 | "LQFP48" is LQFP with 48 pins, and not on a grid. |
| PackageModel.ClassifyTfbga144 | src/package.rs:85-92 | "TFBGA144" is TFBGA with 144 pins, on a grid. |
| PackageModel.ClassifyBareCode | src/package.rs:26 | "LQFP" (no digits) panics. |
| PackageModel.ClassifyUnknownCodes | src/package.rs:28-39 | The lookup is exact: "lqfp48" and "48" are `Unknown(48)`. |
| PackageModel.ClassifyOverflow | src/package.rs:26 | "LQFP65536" panics, because the count does not fit in `u16`. |
| PackageModel.Pins | src/package.rs:53-66 | The carried count, for every family including `Unknown`. |
| PackageModel.IsGridBallOrChipScale | src/package.rs:42-51 | `IsGrid` (`is_grid`) is true exactly for the families whose code ends in "BGA" or "CSP" (UFBGA, TFBGA, LFBGA, WLCSP, EWLCSP). |
| Text.DecimalRoundTrip | src/package.rs:26 | Parsing a printed count gives the count back. |
| MemoryModel.Start | src/memory.rs:9-15 | The start field, for flash, EEPROM and RAM alike. |
| MemoryModel.Size | src/memory.rs:25-31 | The size field, for every kind of region. |
| MemoryModel.End | src/memory.rs:17-23 | Needs `start + size` to fit in `u32`. The end is at least the start, and end minus start is the size. |
| MemoryModel.SampleRegions | src/mcu.rs:160-173 | The sample device's flash (0x08000000, 32) and RAM (0x20000000, 4) end at 0x08000020 and 0x20000004. |
| PeripheralModel.NewPeripheral | src/module/peripheral.rs:12-19 | Name and config are stored unchanged. The record is neither enabled nor configured. |
| PeripheralModel.Setup | src/module/peripheral.rs:22-24 | The open result is discarded, so the record is unchanged. |
| Device.ProcessPeripherals | src/mcu.rs:72-92 | One peripheral per block not named "GPIO": the count is the number of blocks minus the number of "GPIO" blocks. Every emitted record is non-GPIO, disabled and unconfigured. |
| Device.ProcessPeripheralsAppend | src/mcu.rs:75-89 | Processing distributes over concatenation of block lists, so peripherals come out in block order. |
| Device.ProcessPeripheralsSingle | src/mcu.rs:76-87 | A "GPIO" block yields nothing. Any other block yields exactly `Peripheral::new(name, config_file)`. |
| Device.ProcessPeripheralsCovers | src/mcu.rs:82-86 | Every block not named "GPIO" has its peripheral, carrying its name and config file, in the output. |
| Device.Finish | src/mcu.rs:94-111 | Memory, frequency, platform, core, name and package move across unchanged. The pins are wrapped in the registry with the same contents and order. Peripherals are the processed blocks. Middlewares and components are empty. |
| Device.FinishAccessors | src/mcu.rs:128-136 | `GetPins` (`get_pins`) returns the descriptor's pins in order. `GetPeripherals` (`get_peripherals`) has one entry per non-GPIO block. |
| CargoManifest.SetTarget | src/cargo.rs:93-105 | An ARM core gets a non-empty triple. AVR, STM8 and MSP430 get the empty string. |
| CargoManifest.SetTargetFollowsProfile | src/cargo.rs:93-100 | The triple of each Cortex-M core is "thumb" + its ARM architecture profile + "-none-eabi": M0 gives v6m, M3 gives v7m, M4 and M7 give v7em. |
| CargoManifest.SetTargetSharedByProfile | src/cargo.rs:93-100 | Two ARM cores get the same triple iff they implement the same architecture profile (so only M4 and M7 share one). |
| CargoManifest.NewCargo | src/cargo.rs:72-85 | Empty name, binary crate, version 0.1.0, no authors, no dependencies, and the core's target. |
| CargoManifest.SetCrateName | src/cargo.rs:87-89 | Only the name changes. |
| CargoManifest.AddCrate | src/cargo.rs:111-113 | The dependency is appended last. Earlier dependencies and all other fields are unchanged. |
| CargoManifest.AddCrateOrder | src/cargo.rs:111-113 | Crates added one after another are listed in the order they were added. |

## Left out

- `MCU::new` (file open and JSON deserialisation) and `InterruptBuilder::new` in src/irqs.rs: file I/O and serde. Deserialised values are inputs to the model. Such an `IOPin` may carry an out-of-range selection, which is why `CurrentSignal` requires one in range.
- The `println!` calls in `process_peripherals`: console output only.
- The file open in `Peripheral::setup`: I/O whose result the source discards, so it is modelled as the identity.
- The C interface (src/interface.rs, src/interface/*.rs, include/mcu.h, the cbindgen step in build.rs): raw pointers and ownership transfer. `Cargo::new` calls a `get_core` accessor that `MCUConf` does not define, so `NewCargo` takes the `Core` directly.
- `Pins::peripheral_pins` (empty; its logic is commented out), `Cargo::rm_crate` (`unimplemented!`) and the `Module` trait (no implementations): there is no behaviour to model.
- src/projectsettings.rs and src/lib.rs: data and module wiring only.
- PackageModel.Classify: its digit class is ASCII `0-9`. Rust's `\d` also matches other Unicode decimal digits. Such a digit right after an ASCII count would make the source's parse panic, while the model stops the count before it.
- PinModel.CurrentSignal: does not model the panic on an out-of-range selection. It requires the selection to be in range instead.
- MemoryModel.End: does not model the release-build wrap-around of `start + size`. It requires the sum to fit in `u32`, as a debug build would otherwise panic.
- `Pins::find_pin` tests against the sample descriptor (samples/STM32F030C6Tx.json): that file is not part of this model. The same properties are stated for all pin lists instead.
- `MCU::finish` idempotence: a Dafny function is deterministic, so two calls on equal descriptors give equal models by construction.
