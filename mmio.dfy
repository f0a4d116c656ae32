/**
 * The memory-mapped register file that the IOMUXC operations read and write.
 * Every access is volatile: it happens, exactly once and in program order, so
 * the register file keeps the list of the accesses made since reset, and its
 * contents are always what that list of accesses produces from the reset state.
 */
module Mmio {

  /** One volatile bus access to a 32-bit register at a byte address. */
  datatype Access = Read(addr: nat) | Write(addr: nat, value: bv32)

  /** The effect of one access on the register contents: a load changes nothing. */
  function Step(m: map<nat, bv32>, a: Access): map<nat, bv32>
  {
    match a
    case Read(_) => m
    case Write(addr, v) => m[addr := v]
  }

  /** The register contents reached from `m` by performing the accesses `t` in order. */
  function Replay(m: map<nat, bv32>, t: seq<Access>): map<nat, bv32>
    decreases |t|
  {
    if t == [] then m else Replay(Step(m, t[0]), t[1..])
  }

  /** The addresses stored to by the accesses `t`. */
  function Written(t: seq<Access>): set<nat>
    decreases |t|
  {
    if t == [] then {}
    else (if t[0].Write? then {t[0].addr} else {}) + Written(t[1..])
  }

  /** The stores of two lists of accesses, one after the other, are those of each. */
  lemma {:induction false} WrittenAppend(t: seq<Access>, u: seq<Access>)
    ensures Written(t + u) == Written(t) + Written(u)
    decreases |t|
  {
    if t != [] {
      assert (t + u)[1..] == t[1..] + u;
      WrittenAppend(t[1..], u);
    } else {
      assert t + u == u;
    }
  }

  /** Performing one more access acts on the contents the earlier ones left. */
  lemma {:induction false} ReplayAppend(m: map<nat, bv32>, t: seq<Access>, a: Access)
    ensures Replay(m, t + [a]) == Step(Replay(m, t), a)
    decreases |t|
  {
    if t != [] {
      assert (t + [a])[1..] == t[1..] + [a];
      ReplayAppend(Step(m, t[0]), t[1..], a);
    }
  }

  /** A register never stored to keeps its reset value, and accesses never
      create or remove a register. */
  lemma {:induction false} ReplayUntouched(m: map<nat, bv32>, t: seq<Access>, addr: nat)
    requires addr !in Written(t)
    ensures addr in Replay(m, t) <==> addr in m
    ensures addr in m ==> Replay(m, t)[addr] == m[addr]
    decreases |t|
  {
    if t != [] {
      ReplayUntouched(Step(m, t[0]), t[1..], addr);
    }
  }

  /** Stores that only hit existing registers leave the set of registers unchanged. */
  lemma {:induction false} ReplayKeepsRegisters(m: map<nat, bv32>, t: seq<Access>)
    requires Written(t) <= m.Keys
    ensures Replay(m, t).Keys == m.Keys
    decreases |t|
  {
    if t != [] {
      ReplayKeepsRegisters(Step(m, t[0]), t[1..]);
    }
  }

  /** The register file: current contents, contents at reset, accesses since reset. */
  class Memory {
    var mem: map<nat, bv32>
    ghost const boot: map<nat, bv32>
    ghost var trace: seq<Access>

    /** Every store since reset hit a register that existed at reset, and the
        current contents are what the accesses since reset produce. */
    ghost predicate Valid()
      reads this
    {
      Written(trace) <= boot.Keys && mem == Replay(boot, trace)
    }

    /** The set of registers never changes. */
    lemma RegistersFixed()
      requires Valid()
      ensures mem.Keys == boot.Keys
    {
      ReplayKeepsRegisters(boot, trace);
    }

    /** A register that no access since reset stored to still holds its reset value. */
    lemma KeepsResetValue(addr: nat)
      requires Valid() && addr in boot && addr !in Written(trace)
      ensures addr in mem && mem[addr] == boot[addr]
    {
      ReplayUntouched(boot, trace, addr);
    }

    constructor (regs: map<nat, bv32>)
      ensures Valid()
      ensures mem == regs && boot == regs && trace == []
    {
      mem := regs;
      boot := regs;
      trace := [];
    }

    /** A volatile load of a mapped register: returns its contents, changes nothing. */
    method ReadVolatile(addr: nat) returns (v: bv32)
      requires Valid() && addr in mem
      modifies this
      ensures Valid()
      ensures mem == old(mem) && v == mem[addr]
      ensures trace == old(trace) + [Read(addr)]
      ensures Written(trace) == Written(old(trace))
    {
      v := mem[addr];
      ReplayAppend(boot, trace, Read(addr));
      WrittenAppend(trace, [Read(addr)]);
      trace := trace + [Read(addr)];
    }

    /** A volatile store to a mapped register: replaces its contents, nothing else. */
    method WriteVolatile(addr: nat, v: bv32)
      requires Valid() && addr in mem
      modifies this
      ensures Valid()
      ensures mem == old(mem)[addr := v]
      ensures trace == old(trace) + [Write(addr, v)]
      ensures Written(trace) == Written(old(trace)) + {addr}
    {
      RegistersFixed();
      ReplayAppend(boot, trace, Write(addr, v));
      WrittenAppend(trace, [Write(addr, v)]);
      mem := mem[addr := v];
      trace := trace + [Write(addr, v)];
    }
  }
}
