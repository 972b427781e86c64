# 8080/8085A CPU device configuration

This project models the configuration that MAME's Intel 8080/8085A CPU
header fixes for its three devices: the 8085A device and the 8080 and
8080A devices that derive from it. The header has real bodies for:

- the clock/cycle conversions. The 8085A halves its input clock, with
  rounding up. The 8080 variants run one cycle per clock.
- the number of interrupt input lines: 4 on the 8085A, 1 on the 8080 variants.
- the address-space lookup: program and I/O spaces only.
- the execution and disassembly constants.
- the constant tables: register identifiers, input-line numbers and
  status-byte masks.

It also declares the per-device state. The model keeps that as a record
with the shape its declarations fix.

Each C++ device class becomes a value of `Variant` (`I8080`, `I8080A`,
`I8085A`). Each virtual member becomes a function of that value. The
`uint64_t` arithmetic of the conversions is written out with its
wrap-around (`Add64`, `Sub64`, `Double64` in module `Common`). Nothing is
assumed away by preconditions, so the model also says what happens at the
top of the 64-bit range.

Files:
- `common.dfy`: the `Common` module. It holds `Option` and the `u8`/`u32`/`u64` machine integers with wrapping add, subtract and double.
- `i8085_constants.dfy`: the `I8085Constants` module. It holds the register enum, the line numbers, the status masks and the status byte as a set of flags.
- `i8085_device.dfy`: the `I8085Device` module. It holds the variant overrides, the conversions, the memory-space lookup and the constants.
- `i8085_state.dfy`: the `I8085State` module. It holds the declared device state and its well-formedness predicate.

## Model

| member | source | states |
|---|---|---|
| I8085Constants.RegisterIndex | src/devices/cpu/i8085/i8085.h:12-18 | every register's identifier is below 20, the number of enumerators I8085_PC through I8085_IM |
| I8085Constants.RegisterOf | src/devices/cpu/i8085/i8085.h:12-18 | an enumerator value names a register exactly when it is in 0..19, and the named register's identifier is that value |
| I8085Constants.RegisterIndexRoundTrip | src/devices/cpu/i8085/i8085.h:12-18 | decoding a register's identifier gives the same register back |
| I8085Constants.RegisterIndexInjective | src/devices/cpu/i8085/i8085.h:12-18 | two registers share an identifier only if they are the same register |
| I8085Constants.LineNumber | src/devices/cpu/i8085/i8085.h:20-23 | every line number is below 4, the length of the raw line-state array, and only INTR is line 0 |
| I8085Constants.LineOf | src/devices/cpu/i8085/i8085.h:20-23 | a number names an input line exactly when it is in 0..3, and that line's number is the number |
| I8085Constants.LineNumberRoundTrip | src/devices/cpu/i8085/i8085.h:20-23 | INTR, RST5.5, RST6.5 and RST7.5 have distinct numbers, and decoding one gives the line back |
| I8085Constants.StatusBit | src/devices/cpu/i8085/i8085.h:25-32 | each status flag has a bit position in 0..7, and the flags are listed in ascending bit order |
| I8085Constants.StatusMask | src/devices/cpu/i8085/i8085.h:25-32 | each status mask is the single bit `1 << position` of its flag |
| I8085Constants.StatusMasksDisjoint | src/devices/cpu/i8085/i8085.h:25-32 | two masks AND to 0 exactly when they belong to different flags |
| I8085Constants.StatusMasksCoverByte | src/devices/cpu/i8085/i8085.h:25-32 | the eight masks OR together to 0xFF |
| I8085Constants.StatusByteBit | src/devices/cpu/i8085/i8085.h:25-32 | masking a status byte with one flag's mask gives that flag's bit and nothing else |
| I8085Constants.StatusFlagsOfStatusByte | src/devices/cpu/i8085/i8085.h:25-32 | building a status byte from a set of flags and reading the flags back gives the same set |
| I8085Constants.StatusByteOfStatusFlags | src/devices/cpu/i8085/i8085.h:25-32 | every byte value is the status byte of exactly the flags whose bits it has set |
| I8085Device.ExecuteInputLines | src/devices/cpu/i8085/i8085.h:73 | the count is at most 4, and a line number is below it exactly when the device is an 8085A or the line is INTR; the 8080 overrides at lines 154 and 167 give 1 |
| I8085Device.ExecuteMinCycles | src/devices/cpu/i8085/i8085.h:71 | the minimum instruction cost is positive, on every variant |
| I8085Device.ExecuteMaxCycles | src/devices/cpu/i8085/i8085.h:72 | the maximum instruction cost is at least the minimum, on every variant |
| I8085Device.ExecuteDefaultIrqVector | src/devices/cpu/i8085/i8085.h:74 | the default vector fits in a byte and has all eight data bits set |
| I8085Device.ExecuteClocksToCycles | src/devices/cpu/i8085/i8085.h:77 | on the 8085A the result is `(clocks + 1)` reduced modulo 2^64 and halved, the wrap included; on the 8080 variants (overrides at lines 155 and 168) it is the clock count itself; on every variant it is never more than the clock count |
| I8085Device.ExecuteCyclesToClocks | src/devices/cpu/i8085/i8085.h:78 | cycles convert to cycles times the clocks per cycle (2 on the 8085A, 1 on the 8080 variants at lines 156 and 169) reduced modulo 2^64, and to the exact product whenever it fits in 64 bits |
| I8085Device.HalfRoundedUp | src/devices/cpu/i8085/i8085.h:77 | below 2^64-1, the 8085A's wrapping `(clocks + 2 - 1) / 2` equals `(clocks + 1) / 2` |
| I8085Device.ClocksToCyclesIsCeiling | src/devices/cpu/i8085/i8085.h:77 | below 2^64-1, clocks convert to the ceiling of clocks divided by the clocks per cycle, on every variant |
| I8085Device.ClocksToCyclesWrapsAtMax | src/devices/cpu/i8085/i8085.h:77 | at 2^64-1 clocks the 8085A's sum wraps and the result is 0 cycles, while the 8080 keeps 2^64-1 |
| I8085Device.CyclesRoundTrip | src/devices/cpu/i8085/i8085.h:77-78 | cycles to clocks and back is exact if and only if the device is an 8080 variant or the count is below 2^63 |
| I8085Device.ClocksRoundTrip | src/devices/cpu/i8085/i8085.h:77-78 | below 2^64-1, clocks to cycles and back gives k or k+1, and exactly k if and only if the device is an 8080 variant or k is even |
| I8085Device.MemorySpaceConfig | src/devices/cpu/i8085/i8085.h:81 | the program space gets the program config, the I/O space the I/O config, and every other space none |
| I8085Device.MemorySpaceConfigInjective | src/devices/cpu/i8085/i8085.h:81 | two spaces that get the same non-null config are the same space |
| I8085Device.DisasmMinOpcodeBytes | src/devices/cpu/i8085/i8085.h:89 | an opcode is at least 1 byte long, on every variant |
| I8085Device.DisasmMaxOpcodeBytes | src/devices/cpu/i8085/i8085.h:90 | the longest opcode is at least the shortest, on every variant |
| I8085Device.InheritedMembersAgree | src/devices/cpu/i8085/i8085.h:147-170 | the members the 8080 classes do not override give the same answer on every variant |
| I8085State.CpuType | src/devices/cpu/i8085/i8085.h:102 | m_cputype is 0 or 1, and 1 exactly for the variant that has all four input lines (the 8085A) |
| I8085State.Declared | src/devices/cpu/i8085/i8085.h:102-128 | storage sized as declared satisfies the invariant: four line states, three 256-entry tables, cputype in {0,1}, after_ei in 0..2 |
| I8085State.AcceptedLinesHaveState | src/devices/cpu/i8085/i8085.h:110 | in a valid state, every line number the variant accepts indexes the raw line-state array and names a header line |
| I8085State.CpuTypeSeparatesFamilies | src/devices/cpu/i8085/i8085.h:102 | two variants share a cputype exactly when both or neither is the 8085A |

The well-formedness predicate
`I8085State.CoreState.Valid` states the field constraints:

- `irqState` holds 4 entries.
- `lutCycles`, `zs` and `zsp` hold 256 entries each.
- `cputype` is 0 or 1.
- `afterEi` is at most 2.

## Left out

- The instruction interpreter, the flag tables and the interrupt code are not part of this model. This covers `execute_run`, `execute_one`, `init_tables`, `check_for_interrupts`, `break_halt_for_interrupt`, `execute_set_input`, `get_rim_value`, `set_sod`, `set_inte`, `set_status`, `ROP`/`ARG`/`ARG16`/`RM`/`WM`, `device_start` and `device_reset`. The header only declares them. Their bodies are in the i8085 implementation file, which is not part of this model.
- The contents of the cycle tables `lut_cycles_8080`/`lut_cycles_8085` and of the flag tables `ZS`/`ZSP` are defined in that implementation file. Only their sizes are modelled.
- I8085State.Declared: the zero contents are a placeholder that satisfies the declared shape. They are not the power-on or reset values, because `device_reset` is not part of this model.
- The mapping from device class to `m_cputype` is taken from the comment at line 102: 0 for the 8080, 1 for the 8085A. The constructors that set it are not part of this model.
- The static configuration helpers and the devcb callback members (lines 35-63, 97-100) are framework wiring and are left out.
- State import/export, string export (lines 84-86) and the disassembler (line 91) are debugger glue with no bodies here.
- The `address_space`/`direct_read_data` pointers and `m_icount`'s use in real-time scheduling (lines 117-120) belong to the framework. `m_icount` is kept only as an integer field.
- `PAIR` is a framework union of byte, word and 32-bit views. The model keeps only the 32-bit view of each register pair.
- The `address_spacenum` enumeration is defined by the framework. The model distinguishes only the program space, the I/O space and any other space. The default argument `AS_0` is the program space in that enumeration and is not modelled separately.
- The `address_space_config` contents (names, widths, endianness) are set in the constructors, which are not part of this model. A config is modelled only by which of the two it is.
