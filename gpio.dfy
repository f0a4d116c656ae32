/** GPIO pad configuration: preparing a pad to act as a GPIO pin. */
module Gpio {
  import opened MuxWord
  import opened Mmio
  import opened Pads
  import Iomuxc

  /**
   * A typed pad that can act as a GPIO pin: the alternate value that selects GPIO
   * on it, and the GPIO module and bit it drives (module 5, bit 13 for
   * `GPIO5_IO13`).
   */
  datatype Pin = Pin(pad: Pad, alt: bv32, gpioModule: nat, gpioOffset: nat)

  /** Prepare the pad for GPIO: exactly `Alternate` on the typed pad with `pin.alt`.
      Only typed pads are pins, so an erased pad cannot be prepared. */
  method Prepare(m: Memory, pin: Pin)
    requires m.Valid() && Typed(pin.pad).Mux() in m.mem
    modifies m
    ensures m.Valid()
    ensures m.mem == old(m.mem)[Typed(pin.pad).Mux() := WithAlternate(old(m.mem)[Typed(pin.pad).Mux()], pin.alt)]
    ensures m.trace == old(m.trace) + [Read(Typed(pin.pad).Mux()), Write(Typed(pin.pad).Mux(), m.mem[Typed(pin.pad).Mux()])]
    ensures Written(m.trace) == Written(old(m.trace)) + {Typed(pin.pad).Mux()}
  {
    Iomuxc.Alternate(m, Typed(pin.pad), pin.alt);
  }
}
