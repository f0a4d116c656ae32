/**
 * The register operations: read-modify-write updates of a pad's multiplexer
 * register (SION and the alternate-function field), the typed-pad shortcuts
 * that apply them to a pad named by its type, and the daisy selector, which
 * stores one value to one input-select register.
 */
module Iomuxc {
  import opened MuxWord
  import opened Mmio
  import opened Pads

  /** Set the SION bit: one load and one store of the pad's multiplexer register. */
  method SetSion(m: Memory, pad: IomuxcPad)
    requires m.Valid() && pad.Mux() in m.mem
    modifies m
    ensures m.Valid()
    ensures m.mem == old(m.mem)[pad.Mux() := WithSion(old(m.mem)[pad.Mux()])]
    ensures m.trace == old(m.trace) + [Read(pad.Mux()), Access.Write(pad.Mux(), m.mem[pad.Mux()])]
    ensures Written(m.trace) == Written(old(m.trace)) + {pad.Mux()}
  {
    var mux := m.ReadVolatile(pad.Mux());
    mux := mux | SionBit;
    m.WriteVolatile(pad.Mux(), mux);
  }

  /** Clear the SION bit: one load and one store of the pad's multiplexer register. */
  method ClearSion(m: Memory, pad: IomuxcPad)
    requires m.Valid() && pad.Mux() in m.mem
    modifies m
    ensures m.Valid()
    ensures m.mem == old(m.mem)[pad.Mux() := WithoutSion(old(m.mem)[pad.Mux()])]
    ensures m.trace == old(m.trace) + [Read(pad.Mux()), Access.Write(pad.Mux(), m.mem[pad.Mux()])]
    ensures Written(m.trace) == Written(old(m.trace)) + {pad.Mux()}
  {
    var mux := m.ReadVolatile(pad.Mux());
    mux := mux & !SionBit;
    m.WriteVolatile(pad.Mux(), mux);
  }

  /** Set the alternate-function field to the low four bits of `alt`: one load
      and one store of the pad's multiplexer register. */
  method Alternate(m: Memory, pad: IomuxcPad, alt: bv32)
    requires m.Valid() && pad.Mux() in m.mem
    modifies m
    ensures m.Valid()
    ensures m.mem == old(m.mem)[pad.Mux() := WithAlternate(old(m.mem)[pad.Mux()], alt)]
    ensures m.trace == old(m.trace) + [Read(pad.Mux()), Access.Write(pad.Mux(), m.mem[pad.Mux()])]
    ensures Written(m.trace) == Written(old(m.trace)) + {pad.Mux()}
  {
    var mux := m.ReadVolatile(pad.Mux());
    mux := (mux & !AltMask) | (alt & AltMask);
    m.WriteVolatile(pad.Mux(), mux);
  }

  /** `Pad::set_alternate`: `Alternate` on a fresh handle to the typed pad `p`. */
  method TypedSetAlternate(m: Memory, p: Pad, alt: bv32)
    requires m.Valid() && Typed(p).Mux() in m.mem
    modifies m
    ensures m.Valid()
    ensures m.mem == old(m.mem)[Typed(p).Mux() := WithAlternate(old(m.mem)[Typed(p).Mux()], alt)]
    ensures m.trace == old(m.trace) + [Read(Typed(p).Mux()), Access.Write(Typed(p).Mux(), m.mem[Typed(p).Mux()])]
    ensures Written(m.trace) == Written(old(m.trace)) + {Typed(p).Mux()}
  {
    var pad := Typed(p);
    Alternate(m, pad, alt);
  }

  /** `Pad::set_sion`: `SetSion` on a fresh handle to the typed pad `p`. */
  method TypedSetSion(m: Memory, p: Pad)
    requires m.Valid() && Typed(p).Mux() in m.mem
    modifies m
    ensures m.Valid()
    ensures m.mem == old(m.mem)[Typed(p).Mux() := WithSion(old(m.mem)[Typed(p).Mux()])]
    ensures m.trace == old(m.trace) + [Read(Typed(p).Mux()), Access.Write(Typed(p).Mux(), m.mem[Typed(p).Mux()])]
    ensures Written(m.trace) == Written(old(m.trace)) + {Typed(p).Mux()}
  {
    var pad := Typed(p);
    SetSion(m, pad);
  }

  /** `Pad::clear_sion`: `ClearSion` on a fresh handle to the typed pad `p`. */
  method TypedClearSion(m: Memory, p: Pad)
    requires m.Valid() && Typed(p).Mux() in m.mem
    modifies m
    ensures m.Valid()
    ensures m.mem == old(m.mem)[Typed(p).Mux() := WithoutSion(old(m.mem)[Typed(p).Mux()])]
    ensures m.trace == old(m.trace) + [Read(Typed(p).Mux()), Access.Write(Typed(p).Mux(), m.mem[Typed(p).Mux()])]
    ensures Written(m.trace) == Written(old(m.trace)) + {Typed(p).Mux()}
  {
    var pad := Typed(p);
    ClearSion(m, pad);
  }

  /**
   * A pad configuration register that no access since reset has stored to
   * (only SION and alternate updates of this pad, say, whose stores all hit the
   * multiplexer register) still holds its reset value, provided the two
   * registers have different addresses.
   */
  lemma PadRegisterKeepsResetValue(m: Memory, pad: IomuxcPad)
    requires m.Valid() && pad.PadReg() in m.boot
    requires pad.PadReg() != pad.Mux() && Written(m.trace) <= {pad.Mux()}
    ensures pad.PadReg() in m.mem && m.mem[pad.PadReg()] == m.boot[pad.PadReg()]
  {
    m.KeepsResetValue(pad.PadReg());
  }

  /** A daisy selection: writing `value` to the input-select register `reg`
      routes one peripheral input from one pad. */
  datatype Daisy = Daisy(reg: nat, value: bv32)
  {
    /** Commit the selection: a single store, with no load beforehand. */
    method Write(m: Memory)
      requires m.Valid() && reg in m.mem
      modifies m
      ensures m.Valid()
      ensures m.mem == old(m.mem)[reg := value]
      ensures m.trace == old(m.trace) + [Access.Write(reg, value)]
      ensures Written(m.trace) == Written(old(m.trace)) + {reg}
    {
      m.WriteVolatile(reg, value);
    }
  }

  /**
   * The erased-pad walk-through of the crate's documentation: erase pad 3 of a
   * group whose two bases are both 0 (so its multiplexer and pad registers
   * share address 12), select alternate 7, set SION, and recover the typed pad.
   */
  method ErasedPadExample(m: Memory) returns (r: Result<Pad, WrongPadError>)
    requires m.Valid() && 12 in m.mem
    modifies m
    ensures m.Valid()
    ensures m.mem == old(m.mem)[12 := (old(m.mem)[12] & !0x1F) | 0x17]
    ensures m.trace == old(m.trace) + [Read(12), Access.Write(12, WithAlternate(old(m.mem)[12], 7)),
                                       Read(12), Access.Write(12, m.mem[12])]
    ensures Written(m.trace) == Written(old(m.trace)) + {12}
    ensures r == Ok(Pad(Base(0, 0), 3))
  {
    var p := Pad(Base(0, 0), 3);
    var erased := Erase(p);
    Alternate(m, Erased(erased), 7);
    SetSion(m, Erased(erased));
    r := TryFrom(p, erased);
  }

  /** Committing the selector (0x3008, 2) stores 2 at 0x3008 and touches nothing else. */
  method DaisyExample(m: Memory)
    requires m.Valid() && 0x3008 in m.mem
    modifies m
    ensures m.Valid()
    ensures 0x3008 in m.mem && m.mem[0x3008] == 2
    ensures forall a :: a in old(m.mem) && a != 0x3008 ==> a in m.mem && m.mem[a] == old(m.mem)[a]
    ensures m.trace == old(m.trace) + [Access.Write(0x3008, 2)]
    ensures Written(m.trace) == Written(old(m.trace)) + {0x3008}
  {
    var d := Daisy(0x3008, 2);
    d.Write(m);
  }
}
