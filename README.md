# GPIO pin modes and register encoding of the BCM2711 HAL, in Dafny

This project models the GPIO core of a hardware abstraction layer for the
BCM2711: the vocabulary of pin modes and pin identities, the register control
layer that turns a pin and a mode into writes on the GPIO register block, and
the typed pin handle that changes mode and drives or reads its level through
that layer.

- `dynpin.dfy` (module `DynPin`, from `src/gpio/dynpin.rs`): the `DynPinMode`
  tagged union with its four families and their sub-variants, and `DynPinId`
  with its bank (`num / 32`), function-select (`num / 10`) and pull-control
  (`num / 15`) indices. Pin numbers are Rust `u8`, modelled as `bv8`.
- `reg.dfy` (module `Reg`, from `src/gpio/reg.rs`): the 3-bit function-select
  codes, the mode to register-field mapping, the single-bit mask, and a
  `RegisterBlock` class holding the twelve 32-bit registers (`gplev`, `gpset`,
  `gpclr`: two each; `gpfsel`: six) with a ghost log of every write. `ReadPin`
  reads a level register; `WritePin` and `ChangeMode` replace one register
  word, as `write_with_zero` does, and change nothing else. Every Rust panic
  on these paths (`todo!()` for the Disabled and Function families,
  `unreachable!()` for a bank or function-select group with no register, and
  the `u8` shift overflow at function-select offsets 8 and 9) is a `Panic`
  result that leaves every register untouched, since each fires before the
  write.
- `pin.dfy` (module `Pin`, from `src/gpio/pin.rs`): the input and output
  configuration markers and the `Input<C>`/`Output<C>` modes as datatypes whose
  `Dyn()` is the associated `DYN` constant; the declared ids `Gpio0` and
  `Gpio42` with their reset modes; and a `Pin` class with a fixed `id` (what
  `Registers::id` returns), the current typed `mode`, and the register block.
  `IntoMode` issues a function-select write only when the canonical modes
  differ; `SetHigh`/`SetLow` are defined for output modes, `IsHigh`/`IsLow`
  for input modes. `Registers::change_mode::<M>` only passes `M::DYN` on, so
  `IntoMode` calls `ChangeMode` with `target.Dyn()` directly.

A handle is created for a declared pin id only, as the source's `Pin<I, M>`
requires `I: PinId`. Its invariant is that its id is addressable: its bank is
0 or 1 and its function-select group is 0..5, i.e. the pin number is below 60;
every declared id's `DYN` is. Under it,
`SetHigh`, `SetLow`, `IsHigh` and `IsLow` never panic, as the source's
infallible results promise; `IntoMode` still aborts at offsets 8 and 9.
Neither declared pin (0 and 42) reaches that abort.

The code declares 19 concrete mode variants (4 disabled, 4 input, 2 output,
9 function), and pin 42 resets to a pulled-down input.

## Model

| member | source | states |
|---|---|---|
| `DynPin.ModeEqualityIsStructural` | src/gpio/dynpin.rs:44-52 | two modes are equal iff they have the same family tag and the same sub-variant |
| `DynPin.DynPinId.Group` | src/gpio/dynpin.rs:61-63 | the bank index g is the one with 32·g ≤ num < 32·(g+1) over the integers, i.e. num / 32 |
| `DynPin.DynPinId.FselGroup` | src/gpio/dynpin.rs:65-67 | the function-select index g is the one with 10·g ≤ num < 10·(g+1) over the integers, i.e. num / 10 |
| `DynPin.DynPinId.PullGroup` | src/gpio/dynpin.rs:69-71 | the pull-control index g is the one with 15·g ≤ num < 15·(g+1) over the integers, i.e. num / 15 |
| `DynPin.GroupInRange` | src/gpio/dynpin.rs:61-63 | the bank index is 0 or 1 iff num < 64 |
| `DynPin.FselGroupInRange` | src/gpio/dynpin.rs:65-67 | the function-select index is in 0..5 iff num < 60 |
| `DynPin.FselSlotIsUnique` | src/gpio/dynpin.rs:65-67 | num == 10·fsel_group + num % 10, and two ids share (fsel_group, offset) iff they are equal |
| `DynPin.PullSlotIsUnique` | src/gpio/dynpin.rs:69-71 | num == 15·pull_group + num % 15, and two ids share (pull_group, offset) iff they are equal |
| `DynPin.PullSlotDecomposes` | src/gpio/dynpin.rs:69-71 | num == 15·pull_group + num % 15 |
| `DynPin.GroupOfNextBank` | src/gpio/dynpin.rs:61-63 | for n < 32, pin n is in bank 0 and pin n + 32 in the next bank |
| `Reg.FselCode` | src/gpio/reg.rs:16-28 | every function-select code is below 8 |
| `Reg.FselCodeDecodes` | src/gpio/reg.rs:16-28 | decoding a code gives back the choice it encodes |
| `Reg.FselCodeEncodes` | src/gpio/reg.rs:16-28 | every 3-bit value is the code of the choice it decodes to |
| `Reg.FselCodeIsOnto` | src/gpio/reg.rs:16-28 | every 3-bit value is the code of some function-select choice |
| `Reg.FselCodeInjective` | src/gpio/reg.rs:16-28 | two choices have the same code iff they are the same choice |
| `Reg.ModeFieldsOf` | src/gpio/reg.rs:42-54 | every input mode maps to Input, every output mode to Output, whatever its sub-variant; Disabled and Function abort as unimplemented, and only they do |
| `Reg.ModeFieldsIgnoreSubConfig` | src/gpio/reg.rs:42-54 | two input (or two output) modes get the same fields, with code 0b000 (or 0b001) |
| `Reg.Mask` | src/gpio/reg.rs:59-61 | the mask has exactly one bit set, at position num % 32 |
| `Reg.MaskRepeatsEveryBank` | src/gpio/reg.rs:59-61 | pins n and n + 32 have equal masks and different banks |
| `Reg.FselWord` | src/gpio/reg.rs:98-101 | the word `change_mode` computes: 0 for an input mode, a single bit at position num % 10 for an output mode; unimplemented for Disabled/Function; a `u8` shift overflow exactly at offsets 8 and 9 |
| `Reg.FselWordOfPinFive` | src/gpio/reg.rs:98-106 | pin 5 is in function-select register 0; an output mode writes 32 (0b001 << 5) there, an input mode 0 |
| `Reg.RegisterBlock.ReadPin` | src/gpio/reg.rs:64-72 | for bank 0 or 1 the result is the pin's mask bit in that bank's level register; any other bank is unreachable |
| `Reg.RegisterBlock.WritePin` | src/gpio/reg.rs:75-96 | for bank 0 or 1 exactly the mask is written to the set (true) or clear (false) register of the bank, replacing it, and no other register changes; any other bank aborts with nothing written |
| `Reg.RegisterBlock.ChangeMode` | src/gpio/reg.rs:98-125 | the register `gpfsel[fsel_group]` is overwritten with `FselWord`, nothing else changes, and the log gains that one write; each abort (unimplemented, shift overflow, unreachable group) writes nothing |
| `Reg.LevelRoundTrip` | src/gpio/reg.rs:64-96 | under a mock where set/clear writes update the level register, reading a pin after writing it returns the written level |
| `Reg.LevelWriteIsDisjoint` | src/gpio/reg.rs:64-96 | under the same mock, writing one pin leaves the level of every other pin of its bank unchanged |
| `Reg.FselWordFieldCorrectOnlyAtOffsetZero` | src/gpio/reg.rs:100-101 | the word as written holds the Output code in the pin's own 3-bit field iff the pin's offset is 0 |
| `Reg.FselWordMisplacesPinOne` | src/gpio/reg.rs:100-101 | pin 1 to output writes 2, which reads as Input for pin 1 and AlternateFunction5 for pin 0, where the intended word is 8; pin 8 aborts |
| `Reg.IntendedFselWord` | src/gpio/reg.rs:98-101 | the corrected word holds the mode's code in the pin's 3-bit field and 0 in the other nine fields and in the top two bits |
| `Reg.IntendedFselUpdate` | src/gpio/reg.rs:98-121 | the corrected read-modify-write: the pin's field takes the mode's code, the other nine fields and the top two bits keep the old register's values |
| `Reg.UpdateKeepsOtherFields` | src/gpio/reg.rs:98-121 | updating one 3-bit field sets it to the code and leaves every other field and the top bits as they were |
| `Reg.FieldOfUpdate` | src/gpio/reg.rs:98-121 | after a field update, each field holds the code if it is the updated one and its old value otherwise |
| `Reg.NeighbourResetScenario` | src/gpio/reg.rs:104-121 | pin 0 set to output, then pin 1 to input, through `ChangeMode`: pin 0's field goes from Output back to Input; the intended update keeps it Output |
| `Reg.LevelAfterKeepsUnmaskedBit` | src/gpio/reg.rs:75-96 | under the mock, a set or clear write leaves every level bit outside its mask unchanged |
| `Pin.InputConfig.Dyn` | src/gpio/pin.rs:18-29 | each input marker's `DYN` value names that marker back |
| `Pin.OutputConfig.Dyn` | src/gpio/pin.rs:47-52 | each output marker's `DYN` value names that marker back |
| `Pin.PinId.Dyn` | src/gpio/pin.rs:189-200 | each declared id's `DYN` is a pin with level and function-select registers |
| `Pin.PinId.Reset` | src/gpio/pin.rs:189-200 | every declared pin resets to an input with a pull-up or pull-down |
| `Pin.InputConfigDynIsBijective` | src/gpio/pin.rs:14-29 | the input markers and their `DYN` values correspond one to one |
| `Pin.OutputConfigDynIsBijective` | src/gpio/pin.rs:40-52 | the output markers and their `DYN` values correspond one to one |
| `Pin.PinMode.Dyn` | src/gpio/pin.rs:61-70 | `Input<C>::DYN` is an input with `C::DYN`, `Output<C>::DYN` an output with `C::DYN` |
| `Pin.PinModeDynIsInjective` | src/gpio/pin.rs:61-70 | two typed modes have equal `DYN` values iff they are the same mode |
| `Pin.PinModeCoversInputAndOutput` | src/gpio/pin.rs:61-70 | every input or output canonical mode is the `DYN` value of some typed mode |
| `Pin.PinModeHasFields` | src/gpio/pin.rs:65-70 | a typed mode always has register fields; its word aborts only at offsets 8 and 9 |
| `Pin.DeclaredPins` | src/gpio/pin.rs:189-200 | Gpio0 is pin 0 resetting to a pulled-up input; Gpio42 is pin 42 resetting to a pulled-down input, in bank 1 and function-select register 4; both are addressable and never overflow the shift |
| `Pin.Pin.constructor` | src/gpio/pin.rs:121-126 | a handle is created for a declared pin id, whose `DYN` becomes its id, and creating it writes no register |
| `Pin.Pin.IntoMode` | src/gpio/pin.rs:128-133 | same target: no write; otherwise exactly one write of `FselWord(id, target)` to `gpfsel[fsel_group]`, nothing else changed; the id stays fixed and the mode becomes the target |
| `Pin.IntoModeTwice` | src/gpio/pin.rs:128-133 | a second transition to the same target succeeds and writes nothing |
| `Pin.Pin.SetHigh` | src/gpio/pin.rs:163-166 | on an output pin, writes exactly the mask to the bank's set register, never fails, and changes nothing else |
| `Pin.Pin.SetLow` | src/gpio/pin.rs:167-170 | on an output pin, writes exactly the mask to the bank's clear register, never fails, and changes nothing else |
| `Pin.Pin.IsHigh` | src/gpio/pin.rs:180-182 | on an input pin, the pin's bit in its bank's level register, never failing |
| `Pin.Pin.IsLow` | src/gpio/pin.rs:184-186 | on an input pin, always the negation of `IsHigh` |
| `Pin.Gpio0Scenario` | src/gpio/pin.rs:196-200 | pin 0 from reset, switched to push-pull output and driven high, leaves 1 in `gpfsel0` and 1 in `gpset0` |
| `Pin.Gpio42Scenario` | src/gpio/pin.rs:190-194 | pin 42 from reset, switched to readable output and driven low, leaves 4 in `gpfsel4` and 1024 in `gpclr1` |

## Findings

| source | as written | input that shows it | evidently intended | confidence | as-written member | corrected member |
|---|---|---|---|---|---|---|
| src/gpio/reg.rs:100-101 | the 3-bit code is shifted by `num % 10` bits, in `u8` | pin 1 to an output writes 2: pin 1's field (bits 3-5) reads Input and pin 0's field reads AlternateFunction5; pin 8 overflows the `u8` shift | shift by `3 * (num % 10)` bits in 32 bits: pin 1 to an output writes 8 | high; not executed | `Reg.FselWordMisplacesPinOne` | `Reg.IntendedFselWord` |
| src/gpio/reg.rs:104-121 | `write_with_zero` replaces the whole function-select register with the one pin's word | pin 0 to an output, then pin 1 to an input: register 0 ends as 0, so pin 0 reads as Input again | read-modify-write: only the pin's own 3-bit field changes | high; not executed | `Reg.NeighbourResetScenario` | `Reg.IntendedFselUpdate` |

Each register holds ten 3-bit fields (the six registers cover pins 0..59), so
a shift by the offset alone lands in the wrong field for every offset but 0.
Each register is shared by ten pins, so a write that zeroes the register sets
the other nine pins back to Input. `ChangeMode`, and the handle above it, keep
the word and the write as the code has them, so that they state the register
traffic the code produces; `IntendedFselWord` is the corrected encoding and
`IntendedFselUpdate` the corrected update, each with its field property proved.

## Left out

- Memory-mapped, volatile register access through `pac::GPIO::ptr()`: the register block is a class passed to the handle.
- How the hardware turns set and clear writes into levels: `gplev` is never written by the model; `LevelAfter` is a labelled mock used only by `LevelRoundTrip` and `LevelWriteIsDisjoint`.
- Release builds: there a `u8` shift by 8 or 9 does not panic but shifts by `offset & 7`; the model follows the panicking (debug) behaviour.
- Register encodings for the Disabled and Function families and the unused alternate-function paths: the code has `todo!()` or no use for them, so they abort.
- `FunctionSelect::default` and `ModeFields::default`: the default is overwritten on every path that returns.
- The `embedded_hal` traits, `Infallible`, the `Result` wrappers and `PhantomData`: the level operations return their value directly.
- `AnyPin` and `SpecificPin`: type-level conversions with no behaviour.
- The `unsafe` obligation of `Registers::new` and `Pin::new` that at most one handle exists per pin: a caller obligation the code cannot check; the model neither checks nor relies on it.
- The commented-out `gpio_change_mode`: not code.
- Pull-control registers: `PullGroup` is modelled, but nothing in the code uses it.
- Concurrency and the atomicity of set/clear writes: hardware guarantees, not code.
- A runtime-checked dynamic pin handle: the code has only its vocabulary (`dynpin.rs`), no handle.
