/** The execution, memory and disassembly configuration of the three CPU
    devices of the header. The 8085A device is the base; the 8080 and
    8080A devices override only the input-line count and the two
    clock/cycle conversions. One `Variant` value stands for the device
    class, and each virtual member becomes a function of it. */
module I8085Device {
  import opened Common
  import opened I8085Constants

  datatype Variant = I8080 | I8080A | I8085A

  // ---------------------------------------------------------------------
  // device_execute_interface
  // ---------------------------------------------------------------------

  /** execute_input_lines: the 8085A accepts INTR and the three RST lines,
      the 8080 variants only INTR. */
  function ExecuteInputLines(v: Variant): (r: u32)
    ensures r <= LINE_COUNT
    ensures forall l :: LineNumber(l) < r <==> (v == I8085A || l == Intr)
  {
    match v
    case I8085A => 4
    case I8080 => 1
    case I8080A => 1
  }

  /** execute_min_cycles; not overridden by the 8080 variants. */
  function ExecuteMinCycles(v: Variant): (r: u32)
    ensures 0 < r
  {
    4
  }

  /** execute_max_cycles; not overridden by the 8080 variants. */
  function ExecuteMaxCycles(v: Variant): (r: u32)
    ensures ExecuteMinCycles(v) <= r
  {
    16
  }

  /** execute_default_irq_vector: the byte a host with no vectoring logic
      puts on the data bus during an interrupt acknowledge. */
  function ExecuteDefaultIrqVector(v: Variant): (r: u32)
    ensures r < 0x100 && r as bv8 == !(0 as bv8)
  {
    0xff
  }

  /** Input clocks per machine cycle: the 8085A divides its input clock by
      two, the 8080 variants run one cycle per clock. */
  function ClocksPerCycle(v: Variant): (k: nat)
  {
    if v == I8085A then 2 else 1
  }

  /** The quotient rounded up: the least `q` with `q * d >= n`. */
  ghost predicate IsCeilingQuotient(n: nat, d: nat, q: nat)
  {
    d > 0 && q * d >= n && q * d < n + d
  }

  /** execute_clocks_to_cycles, with the uint64_t wrap-around of
      `clocks + 2 - 1` on the 8085A written out. */
  function ExecuteClocksToCycles(v: Variant, clocks: u64): (r: u64)
    ensures r <= clocks
    ensures v != I8085A ==> r == clocks
    ensures v == I8085A ==> r == (clocks + 1) % TWO_64 / 2
  {
    match v
    case I8085A => Sub64(Add64(clocks, 2), 1) / 2
    case I8080 => clocks
    case I8080A => clocks
  }

  /** execute_cycles_to_clocks, with the uint64_t wrap-around of
      `cycles * 2` on the 8085A written out. */
  function ExecuteCyclesToClocks(v: Variant, cycles: u64): (r: u64)
    ensures cycles * ClocksPerCycle(v) < TWO_64 ==> r == cycles * ClocksPerCycle(v)
    ensures r == cycles * ClocksPerCycle(v) % TWO_64
  {
    match v
    case I8085A => Double64(cycles)
    case I8080 => cycles
    case I8080A => cycles
  }

  /** Below the largest uint64_t the 8085A conversion is (clocks + 1) / 2:
      the sum `clocks + 2` may wrap to 0 only for clocks = 2^64 - 2, and
      subtracting 1 then wraps back to the right value. */
  lemma HalfRoundedUp(clocks: u64)
    requires clocks < U64_MAX
    ensures ExecuteClocksToCycles(I8085A, clocks) == (clocks + 1) / 2
  {
  }

  /** Below the largest uint64_t, converting clocks gives the number of
      whole or partial machine cycles they span. */
  lemma ClocksToCyclesIsCeiling(v: Variant, clocks: u64)
    requires clocks < U64_MAX
    ensures IsCeilingQuotient(clocks, ClocksPerCycle(v), ExecuteClocksToCycles(v, clocks))
  {
  }

  /** At the largest uint64_t the 8085A's `clocks + 2 - 1` wraps to 0 and
      the conversion gives 0 cycles. */
  lemma ClocksToCyclesWrapsAtMax()
    ensures ExecuteClocksToCycles(I8085A, U64_MAX) == 0
    ensures ExecuteClocksToCycles(I8080, U64_MAX) == U64_MAX
  {
  }

  /** Cycles converted to clocks and back are the same cycles exactly when
      the doubling does not wrap: always on the 8080 variants, below 2^63
      on the 8085A. */
  lemma CyclesRoundTrip(v: Variant, cycles: u64)
    ensures ExecuteClocksToCycles(v, ExecuteCyclesToClocks(v, cycles)) == cycles
        <==> (v != I8085A || cycles < TWO_63)
  {
  }

  /** Clocks converted to cycles and back lose nothing: they come back as
      the same count, or one clock more when an odd count is rounded up to
      a whole 8085A cycle. */
  lemma ClocksRoundTrip(v: Variant, clocks: u64)
    requires clocks < U64_MAX
    ensures var back := ExecuteCyclesToClocks(v, ExecuteClocksToCycles(v, clocks));
      (back == clocks || back == clocks + 1)
      && (back == clocks <==> (v != I8085A || clocks % 2 == 0))
  {
  }

  // ---------------------------------------------------------------------
  // device_memory_interface
  // ---------------------------------------------------------------------

  /** The address space numbers a host may ask about. The enumeration
      itself belongs to the framework; only the program and I/O spaces
      matter to this device, every other number is `OtherSpace`. */
  datatype AddressSpace = Program | Io | OtherSpace(id: nat)

  /** The two space configurations the device owns (m_program_config and
      m_io_config). */
  datatype SpaceConfig = ProgramConfig | IoConfig

  /** memory_space_config: the device's own configuration for the program
      and I/O spaces, none (a null pointer) for any other space. */
  function MemorySpaceConfig(v: Variant, space: AddressSpace): (r: Option<SpaceConfig>)
    ensures r.Some? <==> (space == Program || space == Io)
    ensures r == Some(ProgramConfig) <==> space == Program
    ensures r == Some(IoConfig) <==> space == Io
  {
    if space == Program then Some(ProgramConfig)
    else if space == Io then Some(IoConfig)
    else None
  }

  /** Distinct spaces never share a configuration. */
  lemma MemorySpaceConfigInjective(v: Variant, s: AddressSpace, t: AddressSpace)
    requires MemorySpaceConfig(v, s).Some? && MemorySpaceConfig(v, s) == MemorySpaceConfig(v, t)
    ensures s == t
  {
  }

  // ---------------------------------------------------------------------
  // device_disasm_interface
  // ---------------------------------------------------------------------

  /** disasm_min_opcode_bytes; not overridden by the 8080 variants. */
  function DisasmMinOpcodeBytes(v: Variant): (r: u32)
    ensures 1 <= r
  {
    1
  }

  /** disasm_max_opcode_bytes: an opcode byte and at most a 16-bit operand. */
  function DisasmMaxOpcodeBytes(v: Variant): (r: u32)
    ensures DisasmMinOpcodeBytes(v) <= r
  {
    3
  }

  /** The members the 8080 variants do not override are the same on every
      variant. */
  lemma InheritedMembersAgree(v: Variant, w: Variant, space: AddressSpace)
    ensures ExecuteMinCycles(v) == ExecuteMinCycles(w)
    ensures ExecuteMaxCycles(v) == ExecuteMaxCycles(w)
    ensures ExecuteDefaultIrqVector(v) == ExecuteDefaultIrqVector(w)
    ensures MemorySpaceConfig(v, space) == MemorySpaceConfig(w, space)
    ensures DisasmMinOpcodeBytes(v) == DisasmMinOpcodeBytes(w)
    ensures DisasmMaxOpcodeBytes(v) == DisasmMaxOpcodeBytes(w)
  {
  }
}
