/** The per-device state the 8085A header declares, as a record with the
    shape constraints its declarations fix. The code that changes these
    fields (reset, the interpreter, interrupt handling) is not part of
    this model, so no operation steps the record. */
module I8085State {
  import opened Common
  import opened I8085Constants
  import opened I8085Device

  /** Entries in each per-opcode or per-byte lookup table. */
  const TABLE_SIZE: nat := 256

  /** m_cputype: 0 for the 8080 family, 1 for the 8085A. */
  function CpuType(v: Variant): (t: int)
    ensures t == 0 || t == 1
    ensures t == 1 <==> ExecuteInputLines(v) == LINE_COUNT
  {
    if v == I8085A then 1 else 0
  }

  /** The declared fields. PAIR registers are held as their 32-bit view. */
  datatype CoreState = CoreState(
    cputype: int,
    pc: u32, sp: u32, af: u32, bc: u32, de: u32, hl: u32, wz: u32,
    halt: u8,
    im: u8,
    status: u8,
    afterEi: u8,
    nmiState: u8,
    irqState: seq<u8>,
    trapPending: u8,
    trapImCopy: u8,
    sodState: u8,
    ieTemp: bool,
    icount: int,
    lutCycles: seq<u8>,
    zs: seq<u8>,
    zsp: seq<u8>)
  {
    /** The fixed array sizes and the documented ranges of m_cputype and
        m_after_ei. */
    predicate Valid()
    {
      && (cputype == 0 || cputype == 1)
      && afterEi <= 2
      && |irqState| == LINE_COUNT
      && |lutCycles| == TABLE_SIZE
      && |zs| == TABLE_SIZE
      && |zsp| == TABLE_SIZE
    }

    /** The state belongs to a device of variant `v`. */
    predicate ValidFor(v: Variant)
    {
      Valid() && cputype == CpuType(v)
    }

    /** The raw state of an input line. */
    function LineState(l: InputLine): (b: u8)
      requires Valid()
    {
      irqState[LineNumber(l)]
    }
  }

  /** The declared storage of a device of variant `v`, every field and
      table entry zero; its shape satisfies the invariant. */
  function Declared(v: Variant): (s: CoreState)
    ensures s.ValidFor(v)
    ensures forall l :: s.LineState(l) == 0
  {
    CoreState(CpuType(v), 0, 0, 0, 0, 0, 0, 0, 0, 0, 0, 0, 0,
              seq(LINE_COUNT, _ => 0), 0, 0, 0, false, 0,
              seq(TABLE_SIZE, _ => 0), seq(TABLE_SIZE, _ => 0), seq(TABLE_SIZE, _ => 0))
  }

  /** Every line a variant accepts has a slot in the raw line-state array,
      and so does every line number the header defines. */
  lemma AcceptedLinesHaveState(s: CoreState, v: Variant, n: int)
    requires s.ValidFor(v)
    requires 0 <= n < ExecuteInputLines(v)
    ensures n < |s.irqState|
    ensures LineOf(n).Some? && s.LineState(LineOf(n).value) == s.irqState[n]
  {
  }

  /** A valid state's cputype identifies the family: the 8085A apart from
      both 8080 variants, which share the value 0. */
  lemma CpuTypeSeparatesFamilies(v: Variant, w: Variant)
    ensures CpuType(v) == CpuType(w) <==> (v == I8085A <==> w == I8085A)
  {
  }
}
