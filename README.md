# i.MX RT IOMUXC pads: a Dafny model

This project models the core of the `imxrt-iomuxc` crate: how an i.MX RT
processor pad is identified, how its two registers are addressed, and the
register operations that configure it.

- A pad group (`Base`) is a pair of register bases: one for multiplexer
  registers and one for pad configuration registers. A pad is a group plus an
  offset. Its registers are at `mux_base + 4*offset` and `pad_base + 4*offset`.
- A strongly typed pad (`Pad<Base, Offset>`) is the datatype `Pads.Pad`.
  An `ErasedPad` holds the same three values at run time. The crate's
  `Iomuxc` trait is implemented only for those two types. Here it is the
  closed union `Pads.IomuxcPad`.
- `erase` turns a typed pad into an erased one. `try_from` recovers the typed
  pad only when both bases and the offset match. Otherwise it returns a
  `WrongPadError` that holds the erased pad, unchanged.
- `set_sion`, `clear_sion` and `alternate` each do one volatile load and one
  volatile store of the pad's multiplexer register. They set bit 4 (SION),
  clear bit 4, or replace the low four bits with `alt & 0xF`.
- `Daisy::write` does one volatile store of a fixed value to an input-select
  register. `Daisy::new` is the datatype constructor `Iomuxc.Daisy(reg, value)`.
- `gpio::prepare` is `alternate(pin, ALT)`. The typed-pad shortcuts
  `Pad::set_alternate`, `Pad::set_sion` and `Pad::clear_sion` apply the free
  functions to their own pad.

The hardware is the class `Mmio.Memory`. It holds a map from byte addresses
to 32-bit words. It also keeps the list of volatile accesses made since
reset. Its invariant `Valid()` says two things. Every store hit a register
that existed at reset. The current contents are exactly what that list of
accesses produces from the reset contents. So the contract of
every register operation says which registers changed and also which
accesses were made, in order.

Nothing in this core stores to a pad configuration register, so only its
address (`IomuxcPad.PadReg()`) is used. The multiplexer and pad registers of
one pad may share an address when the two bases allow it. The crate's own
example group has both bases at 0.

Accessing an address that is not a mapped register is a precondition
(`addr in mem`). It stands for the crate's safety requirement that the
pointers are valid MMIO registers. Register words are `bv32`, as `u32` is in
the source. Addresses are unbounded naturals.

Files:
- `mux_word.dfy`: module `MuxWord`, the bit-level updates of the multiplexer word.
- `mmio.dfy`: module `Mmio`, the register file and its volatile access list.
- `pads.dfy`: module `Pads`, pad identities, addressing, erase and recovery.
- `iomuxc.dfy`: module `Iomuxc`, the register operations, the typed-pad
  shortcuts and the daisy selector.
- `gpio.dfy`: module `Gpio`, `gpio::Pin` and `gpio::prepare`.

## Model

| member | source | states |
|---|---|---|
| `MuxWord.WithSion` | src/lib.rs:259 | the new word has bit 4 (`SION_BIT = 1 << 4`) set and every other bit as in the old word |
| `MuxWord.WithoutSion` | src/lib.rs:277 | the new word has bit 4 clear and every other bit as in the old word |
| `MuxWord.WithAlternate` | src/lib.rs:291-297 | the new word's low four bits are `alt & 0b1111`, and bits 4..31 are as in the old word |
| `MuxWord.FieldsDetermineWord` | src/lib.rs:232 | a word is determined by its bits inside and outside a mask, so the three contracts above fix each result completely |
| `MuxWord.WithSionIdempotent` | src/lib.rs:243-262 | setting SION twice is the same as setting it once |
| `MuxWord.WithoutSionIdempotent` | src/lib.rs:273-280 | clearing SION twice is the same as clearing it once |
| `MuxWord.ClearAfterSet` | src/lib.rs:273-280 | clearing after setting leaves bit 4 clear and all other bits as they started |
| `MuxWord.SetAfterClear` | src/lib.rs:243-262 | setting after clearing leaves bit 4 set and all other bits as they started |
| `MuxWord.SionRoundTrip` | src/lib.rs:257-279 | set then clear, or clear then set, restores the word when bit 4 started in the state the second operation leaves it in |
| `MuxWord.FieldsIndependent` | src/lib.rs:291-299 | the SION updates keep the alternate field; the alternate update keeps SION |
| `MuxWord.AlternateTruncates` | src/lib.rs:292-297 | an alternate value above 15 is silently cut to its low four bits (0x19 acts as 9) |
| `MuxWord.AlternateLastWins` | src/lib.rs:291-299 | two alternate updates in a row leave only the second value |
| `MuxWord.AlternateIdempotent` | src/lib.rs:291-299 | repeating an alternate update changes nothing |
| `MuxWord.AlternateExample` | src/lib.rs:297 | the word 0x10 (SION set) with alternate 9 becomes 0x19 |
| `Mmio.ReplayAppend` | src/lib.rs:258-260 | one more volatile access acts on the contents the earlier accesses left |
| `Mmio.WrittenAppend` | src/lib.rs:258-260 | the addresses stored to by two lists of accesses, one after the other, are those of each list |
| `Mmio.ReplayUntouched` | src/lib.rs:258-260 | (register-file model) an address never stored to keeps its reset value, and accesses never create or remove it |
| `Mmio.ReplayKeepsRegisters` | src/lib.rs:217-218 | (register-file model) stores that only hit mapped registers leave the set of registers unchanged |
| `Mmio.Memory.RegistersFixed` | src/lib.rs:217-218 | the registers that exist never change: the same addresses as at reset |
| `Mmio.Memory.KeepsResetValue` | src/lib.rs:258-260 | a register that no access since reset has stored to still holds its reset value |
| `Mmio.Memory.constructor` | src/lib.rs:217-218 | a register file with the given reset contents and no accesses yet |
| `Mmio.Memory.ReadVolatile` | src/lib.rs:258 | a volatile load returns the register's contents, changes nothing, and is recorded as one load that stores nowhere |
| `Mmio.Memory.WriteVolatile` | src/lib.rs:260 | a volatile store replaces one register's contents, touches no other register, and is recorded as one store to that address |
| `Pads.IomuxcPad.Mux` | src/lib.rs:427-429 | `Iomuxc::mux` for both implementors: dispatches to `RegisterAddress` with the typed or erased pad's multiplexer base and offset, so the address is `Offset()` words past `MuxBase()` (the erased case is src/lib.rs:472-474) |
| `Pads.IomuxcPad.PadReg` | src/lib.rs:431-434 | `Iomuxc::pad` for both implementors: dispatches to `RegisterAddress` with the typed or erased pad's pad base and offset, so the address is `Offset()` words past `PadBase()` (the erased case is src/lib.rs:476-479) |
| `Pads.RegisterAddress` | src/lib.rs:427-434 | a register address is `base + 4*offset`: it is at or above the base, word-aligned from it, and gives back the offset |
| `Pads.AddressesDistinctWithinGroup` | src/lib.rs:472-479 | within one group, two pads share a register exactly when their offsets are equal |
| `Pads.AddressExample` | src/lib.rs:427-434 | bases 0x1000 and 0x2000 with offset 3 give registers 0x100C and 0x200C |
| `Pads.Erase` | src/lib.rs:349-355 | the erased pad addresses the same multiplexer and pad registers as the typed pad |
| `Pads.EraseInjective` | src/lib.rs:349-355 | two typed pads erase to the same value exactly when they are the same pad |
| `Pads.TryFrom` | src/lib.rs:498-507 | recovery succeeds exactly when the erased pad equals the target erased, and then yields the target; on failure the error holds the input erased pad |
| `Pads.RecoverErased` | src/lib.rs:498-503 | erasing a pad and recovering it as the same pad gives `Ok` of that pad |
| `Pads.RecoverAsOtherPad` | src/lib.rs:504-506 | recovering as any other pad gives `Err(WrongPadError(e))` with `e` the erased pad, field for field |
| `Pads.RecoveredKeepsAddresses` | src/lib.rs:499-503 | a recovered pad addresses the same two registers as the erased pad it came from |
| `Pads.SameRegistersOtherFields` | src/lib.rs:499-501 | recovery compares the three stored fields, so an erased pad that reaches the same registers through other fields is refused |
| `Pads.ErasedPadConvertSuccess` | src/lib.rs:580-587 | the unit test's pad, erased, is recovered as itself |
| `Pads.ErasedPadConvertFail` | src/lib.rs:589-597 | the unit test's pad, erased, is refused as offset 1 of the same group |
| `Iomuxc.SetSion` | src/lib.rs:243-262 | one load then one store of the multiplexer register, which is the only address stored to; that word becomes `WithSion` of its old value; no other address changes (the pad register too, whenever its address differs from the multiplexer register's) |
| `Iomuxc.ClearSion` | src/lib.rs:273-280 | one load then one store of the multiplexer register, which is the only address stored to; that word becomes `WithoutSion` of its old value; no other address changes (the pad register too, whenever its address differs from the multiplexer register's) |
| `Iomuxc.Alternate` | src/lib.rs:291-300 | one load then one store of the multiplexer register, which is the only address stored to; that word becomes `WithAlternate` of its old value and `alt`; no other address changes (the pad register too, whenever its address differs from the multiplexer register's) |
| `Iomuxc.TypedSetAlternate` | src/lib.rs:368-371 | the same effect and accesses as `Alternate` on the typed pad |
| `Iomuxc.TypedSetSion` | src/lib.rs:384-387 | the same effect and accesses as `SetSion` on the typed pad |
| `Iomuxc.TypedClearSion` | src/lib.rs:400-403 | the same effect and accesses as `ClearSion` on the typed pad |
| `Iomuxc.PadRegisterKeepsResetValue` | src/lib.rs:258-260 | if every store since reset hit the pad's multiplexer register (as the stores of `set_sion`, `clear_sion` and `alternate` do), its pad register still holds its reset value, whenever its address differs from the multiplexer register's |
| `Iomuxc.Daisy.Write` | src/lib.rs:536-538 | exactly one store of `value` to `reg` with no load; no other register changes |
| `Iomuxc.ErasedPadExample` | src/lib.rs:448-459 | for pad 3 of a group whose bases are both 0 (registers at address 12), alternate 7 then SION on the erased pad leaves that word with bits 0..4 set to 0x17 and bits 5..31 unchanged, after load, store, load, store of that address and no other, and the pad is then recovered as `Ok` |
| `Iomuxc.DaisyExample` | src/lib.rs:525-538 | committing the selector (0x3008, 2) stores 2 at 0x3008, does nothing else, and touches no other address |
| `Gpio.Prepare` | src/lib.rs:554-556 | the same effect and accesses as `Alternate(pin, ALT)` on the pin's typed pad; only typed pads are pins, so an erased pad cannot be prepared |

## Left out

- `configure`, `Config`, `DriveStrength` and the rest of the configuration encoder, and `Pad::configure`. The encoder's module `config` is not part of this model.
- `Pad::new`'s safety rule (at most one live handle per pad). Dafny cannot express it for a value type. The model lets any number of `Pad` values name one pad.
- Concurrency: `Send`/`Sync`, the `PhantomData<*const ()>` marker and their doctests. The model is sequential. It records accesses in order and assumes nothing runs between one operation's load and its store.
- The `Sealed` trait, the `typenum` offsets, the `define_base!` macro and the `prelude` and `consts` re-exports. These are type-level packaging; a `Base` is a pair of numbers here.
- The chip modules `imxrt1010` and `imxrt1060`, and the peripheral modules `adc`, `flexpwm`, `lpi2c`, `lpspi`, `lpuart` and `sai`. They are not part of this model. Their `prepare` functions reuse `alternate`, `set_sion`, `clear_sion` and `Daisy::write`, as `Gpio.Prepare` does.
- `src/pwm.rs`. No `mod pwm` declaration compiles it, and its `prepare` is the same call as `gpio::prepare`.
- Pointer-width overflow of `base + 4*offset`. The source does no bounds checking. Addresses are unbounded naturals here.
