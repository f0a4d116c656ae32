/**
 * Pad identities and register addressing.
 *
 * A pad group (a `Base`) is a pair of register base addresses; a pad is a
 * group plus an offset. The strongly typed pad fixes both when the program is
 * built and has no run-time state; the erased pad holds the same three values
 * at run time. Both address their two registers at `base + 4 * offset`.
 */
module Pads {

  /** A pad group: the multiplexer and pad-configuration register bases. */
  datatype Base = Base(muxBase: nat, padBase: nat)

  /** A strongly typed pad, `Pad<Base, Offset>`: its group and its offset. */
  datatype Pad = Pad(base: Base, offset: nat)

  /** A pad whose group and offset are held at run time. */
  datatype ErasedPad = ErasedPad(muxBase: nat, padBase: nat, offset: nat)

  /** Anything that can address IOMUXC registers: a typed or an erased pad. */
  datatype IomuxcPad = Typed(pad: Pad) | Erased(erased: ErasedPad)
  {
    /** The group's multiplexer register base. */
    function MuxBase(): nat
    {
      match this
      case Typed(p) => p.base.muxBase
      case Erased(e) => e.muxBase
    }

    /** The group's pad configuration register base. */
    function PadBase(): nat
    {
      match this
      case Typed(p) => p.base.padBase
      case Erased(e) => e.padBase
    }

    /** The pad's offset within its group. */
    function Offset(): nat
    {
      match this
      case Typed(p) => p.offset
      case Erased(e) => e.offset
    }

    /** Absolute address of the multiplexer register: `Offset()` words past the
        multiplexer base, for typed and erased pads alike. */
    function Mux(): (addr: nat)
      ensures MuxBase() <= addr
      ensures (addr - MuxBase()) % 4 == 0 && (addr - MuxBase()) / 4 == Offset()
    {
      match this
      case Typed(p) => RegisterAddress(p.base.muxBase, p.offset)
      case Erased(e) => RegisterAddress(e.muxBase, e.offset)
    }

    /** Absolute address of the pad configuration register: `Offset()` words
        past the pad base, for typed and erased pads alike. */
    function PadReg(): (addr: nat)
      ensures PadBase() <= addr
      ensures (addr - PadBase()) % 4 == 0 && (addr - PadBase()) / 4 == Offset()
    {
      match this
      case Typed(p) => RegisterAddress(p.base.padBase, p.offset)
      case Erased(e) => RegisterAddress(e.padBase, e.offset)
    }
  }

  /** The error of a failed recovery: it hands the erased pad back unchanged. */
  datatype WrongPadError = WrongPadError(pad: ErasedPad)

  datatype Result<T, E> = Ok(value: T) | Err(error: E)

  /**
   * The register `offset` words past `base`: registers are 32 bits wide and
   * laid out contiguously, so the offset is recovered from the address.
   */
  function RegisterAddress(base: nat, offset: nat): (addr: nat)
    ensures base <= addr
    ensures (addr - base) % 4 == 0 && (addr - base) / 4 == offset
  {
    base + 4 * offset
  }

  /** Within one group, distinct offsets address distinct registers, for
      typed and erased pads alike. */
  lemma AddressesDistinctWithinGroup(base: nat, i: nat, j: nat)
    ensures RegisterAddress(base, i) == RegisterAddress(base, j) <==> i == j
  {
  }

  /** A group at mux base 0x1000 and pad base 0x2000: pad 3's registers. */
  lemma AddressExample()
    ensures Typed(Pad(Base(0x1000, 0x2000), 3)).Mux() == 0x100C
    ensures Typed(Pad(Base(0x1000, 0x2000), 3)).PadReg() == 0x200C
  {
  }

  /** Erasing a pad keeps the registers it addresses. */
  function Erase(p: Pad): (e: ErasedPad)
    ensures Erased(e).Mux() == Typed(p).Mux()
    ensures Erased(e).PadReg() == Typed(p).PadReg()
  {
    ErasedPad(p.base.muxBase, p.base.padBase, p.offset)
  }

  /** Two typed pads erase to the same value only when they are the same pad. */
  lemma EraseInjective(p: Pad, q: Pad)
    ensures Erase(p) == Erase(q) <==> p == q
  {
  }

  /**
   * Recover the typed pad `target` from an erased pad. It succeeds exactly
   * when the erased pad is `target` erased, that is, when both bases and the
   * offset match; otherwise the erased pad comes back untouched in the error.
   */
  function TryFrom(target: Pad, e: ErasedPad): (r: Result<Pad, WrongPadError>)
    ensures r.Ok? <==> e == Erase(target)
    ensures r.Ok? ==> r.value == target && Erase(r.value) == e
    ensures r.Err? ==> r.error.pad == e
  {
    if e.muxBase == target.base.muxBase
       && e.padBase == target.base.padBase
       && e.offset == target.offset
    then Ok(target)
    else Err(WrongPadError(e))
  }

  /** Erasing a pad and recovering it as the same pad succeeds. */
  lemma RecoverErased(p: Pad)
    ensures TryFrom(p, Erase(p)) == Ok(p)
  {
  }

  /** Recovering an erased pad as any other pad fails and gives back the
      erased pad field for field. */
  lemma RecoverAsOtherPad(p: Pad, q: Pad)
    requires p != q
    ensures TryFrom(q, Erase(p)) == Err(WrongPadError(Erase(p)))
  {
  }

  /** A successful recovery yields a pad addressing the erased pad's registers. */
  lemma RecoveredKeepsAddresses(target: Pad, e: ErasedPad)
    requires TryFrom(target, e).Ok?
    ensures Typed(TryFrom(target, e).value).Mux() == Erased(e).Mux()
    ensures Typed(TryFrom(target, e).value).PadReg() == Erased(e).PadReg()
  {
  }

  /**
   * Recovery compares the stored fields, not the registers they address: an
   * erased pad that names pad 1's registers through a different base and
   * offset is still refused.
   */
  lemma SameRegistersOtherFields()
    ensures Erased(ErasedPad(0x1004, 0x2004, 0)).Mux() == Typed(Pad(Base(0x1000, 0x2000), 1)).Mux()
    ensures Erased(ErasedPad(0x1004, 0x2004, 0)).PadReg() == Typed(Pad(Base(0x1000, 0x2000), 1)).PadReg()
    ensures TryFrom(Pad(Base(0x1000, 0x2000), 1), ErasedPad(0x1004, 0x2004, 0)).Err?
  {
  }

  /** The pad of the crate's unit tests: offset 0 of a test group. */
  const TestPad: Pad := Pad(Base(0x2000_0000, 0x2000_0004), 0)

  /** Erasing the test pad and recovering it as the test pad succeeds. */
  lemma ErasedPadConvertSuccess()
    ensures TryFrom(TestPad, Erase(TestPad)).Ok?
  {
  }

  /** Recovering the erased test pad as offset 1 of the same group fails. */
  lemma ErasedPadConvertFail()
    ensures TryFrom(Pad(TestPad.base, 1), Erase(TestPad)).Err?
  {
  }
}
