/** The constant tables of the 8080/8085A header: the register
    identifiers of the debugger state interface, the numbers of the four
    interrupt input lines and the eight bits of the status byte. */
module I8085Constants {
  import opened Common

  // ---------------------------------------------------------------------
  // Register identifiers (the anonymous enum I8085_PC .. I8085_IM)
  // ---------------------------------------------------------------------

  datatype Register =
    | Pc | Sp | Af | Bc | De | Hl
    | A | B | C | D | E | F | H | L
    | Status | Sod | Sid | Inte
    | Halt | Im

  /** Number of enumerators, I8085_PC through I8085_IM. */
  const REGISTER_COUNT: nat := 20

  /** The value of the register's enumerator; C enumerators count up from 0
      in declaration order. */
  function RegisterIndex(r: Register): (i: nat)
    ensures i < REGISTER_COUNT
  {
    match r
    case Pc => 0  case Sp => 1  case Af => 2  case Bc => 3  case De => 4  case Hl => 5
    case A => 6   case B => 7   case C => 8   case D => 9   case E => 10  case F => 11
    case H => 12  case L => 13
    case Status => 14  case Sod => 15  case Sid => 16  case Inte => 17
    case Halt => 18  case Im => 19
  }

  /** The register an enumerator value names, if any. */
  function RegisterOf(i: int): (r: Option<Register>)
    ensures r.Some? <==> 0 <= i < REGISTER_COUNT
    ensures r.Some? ==> RegisterIndex(r.value) == i
  {
    if i == 0 then Some(Pc) else if i == 1 then Some(Sp)
    else if i == 2 then Some(Af) else if i == 3 then Some(Bc)
    else if i == 4 then Some(De) else if i == 5 then Some(Hl)
    else if i == 6 then Some(A) else if i == 7 then Some(B)
    else if i == 8 then Some(C) else if i == 9 then Some(D)
    else if i == 10 then Some(E) else if i == 11 then Some(F)
    else if i == 12 then Some(H) else if i == 13 then Some(L)
    else if i == 14 then Some(Status) else if i == 15 then Some(Sod)
    else if i == 16 then Some(Sid) else if i == 17 then Some(Inte)
    else if i == 18 then Some(Halt) else if i == 19 then Some(Im)
    else None
  }

  /** Every register has its own identifier, and decoding it gives the
      register back. */
  lemma RegisterIndexRoundTrip(r: Register)
    ensures RegisterOf(RegisterIndex(r)) == Some(r)
  {
  }

  lemma RegisterIndexInjective(r: Register, s: Register)
    ensures RegisterIndex(r) == RegisterIndex(s) <==> r == s
  {
  }

  // ---------------------------------------------------------------------
  // Input lines (I8085_INTR_LINE .. I8085_RST75_LINE)
  // ---------------------------------------------------------------------

  datatype InputLine = Intr | Rst55 | Rst65 | Rst75

  const I8085_INTR_LINE: nat := 0
  const I8085_RST55_LINE: nat := 1
  const I8085_RST65_LINE: nat := 2
  const I8085_RST75_LINE: nat := 3

  /** Number of lines the 8085A header numbers; also the length of the raw
      line-state array m_irq_state. */
  const LINE_COUNT: nat := 4

  function LineNumber(l: InputLine): (n: nat)
    ensures n < LINE_COUNT
    ensures n == I8085_INTR_LINE <==> l == Intr
  {
    match l
    case Intr => I8085_INTR_LINE
    case Rst55 => I8085_RST55_LINE
    case Rst65 => I8085_RST65_LINE
    case Rst75 => I8085_RST75_LINE
  }

  /** The line an input number names, if any. */
  function LineOf(n: int): (l: Option<InputLine>)
    ensures l.Some? <==> 0 <= n < LINE_COUNT
    ensures l.Some? ==> LineNumber(l.value) == n
  {
    if n == I8085_INTR_LINE then Some(Intr)
    else if n == I8085_RST55_LINE then Some(Rst55)
    else if n == I8085_RST65_LINE then Some(Rst65)
    else if n == I8085_RST75_LINE then Some(Rst75)
    else None
  }

  /** The four line numbers are distinct: decoding a line's number gives
      that line back. */
  lemma LineNumberRoundTrip(l: InputLine)
    ensures LineOf(LineNumber(l)) == Some(l)
  {
  }

  // ---------------------------------------------------------------------
  // Status byte bits (I8085_STATUS_INTA .. I8085_STATUS_MEMR)
  // ---------------------------------------------------------------------

  datatype StatusFlag = Inta | Wo | Stack | Hlta | Out | M1 | Inp | Memr

  /** The flags in ascending bit order. */
  const ALL_STATUS_FLAGS: seq<StatusFlag> := [Inta, Wo, Stack, Hlta, Out, M1, Inp, Memr]

  /** Bit position of each flag, 0 for INTA up to 7 for MEMR. */
  function StatusBit(f: StatusFlag): (b: nat)
    ensures b < 8 && ALL_STATUS_FLAGS[b] == f
  {
    match f
    case Inta => 0  case Wo => 1  case Stack => 2  case Hlta => 3
    case Out => 4   case M1 => 5  case Inp => 6    case Memr => 7
  }

  /** The header's mask for each flag: a byte with the flag's bit, and only
      that bit, set. */
  function StatusMask(f: StatusFlag): (m: bv8)
    ensures m == (1 as bv8) << StatusBit(f)
  {
    match f
    case Inta => 0x01
    case Wo => 0x02
    case Stack => 0x04
    case Hlta => 0x08
    case Out => 0x10
    case M1 => 0x20
    case Inp => 0x40
    case Memr => 0x80
  }

  /** Two different flags never share a bit. */
  lemma StatusMasksDisjoint(f: StatusFlag, g: StatusFlag)
    ensures StatusMask(f) & StatusMask(g) == 0 <==> f != g
  {
  }

  /** The mask of `f` if `f` is among `flags`, otherwise no bit. */
  function MaskIf(flags: set<StatusFlag>, f: StatusFlag): bv8
  {
    if f in flags then StatusMask(f) else 0
  }

  /** The byte with exactly the given flags set. */
  function StatusByte(flags: set<StatusFlag>): (b: bv8)
  {
    MaskIf(flags, Inta) | MaskIf(flags, Wo) | MaskIf(flags, Stack) | MaskIf(flags, Hlta)
    | MaskIf(flags, Out) | MaskIf(flags, M1) | MaskIf(flags, Inp) | MaskIf(flags, Memr)
  }

  /** The flags set in a status byte. */
  function StatusFlags(b: bv8): (flags: set<StatusFlag>)
  {
    set f | f in ALL_STATUS_FLAGS && b & StatusMask(f) != 0
  }

  /** Together the eight masks cover the whole byte. */
  lemma StatusMasksCoverByte()
    ensures StatusByte(set f | f in ALL_STATUS_FLAGS) == 0xFF
  {
  }

  /** Masking a status byte with one flag's mask isolates that flag. */
  lemma StatusByteBit(flags: set<StatusFlag>, f: StatusFlag)
    ensures StatusByte(flags) & StatusMask(f) == MaskIf(flags, f)
  {
    var m0, m1, m2, m3 := MaskIf(flags, Inta), MaskIf(flags, Wo), MaskIf(flags, Stack), MaskIf(flags, Hlta);
    var m4, m5, m6, m7 := MaskIf(flags, Out), MaskIf(flags, M1), MaskIf(flags, Inp), MaskIf(flags, Memr);
    assert m0 & 0xFE == 0 && m1 & 0xFD == 0 && m2 & 0xFB == 0 && m3 & 0xF7 == 0;
    assert m4 & 0xEF == 0 && m5 & 0xDF == 0 && m6 & 0xBF == 0 && m7 & 0x7F == 0;
    assert StatusByte(flags) == m0 | m1 | m2 | m3 | m4 | m5 | m6 | m7;
  }

  /** Setting a set of flags and reading them back gives the same set. */
  lemma StatusFlagsOfStatusByte(flags: set<StatusFlag>)
    ensures StatusFlags(StatusByte(flags)) == flags
  {
    var b := StatusByte(flags);
    forall f | true
      ensures f in StatusFlags(b) <==> f in flags
    {
      StatusByteBit(flags, f);
      assert f in ALL_STATUS_FLAGS by { assert ALL_STATUS_FLAGS[StatusBit(f)] == f; }
      assert StatusMask(f) != 0 by { match f
        case Inta => case Wo => case Stack => case Hlta =>
        case Out => case M1 => case Inp => case Memr => }
    }
  }

  /** Every byte value is the status byte of exactly the flags it has set. */
  lemma StatusByteOfStatusFlags(b: bv8)
    ensures StatusByte(StatusFlags(b)) == b
  {
  }
}
