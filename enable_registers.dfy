/**
 * The three RCC clock-enable registers APB1ENR, APB2ENR and AHBENR, each
 * modelled by the set of positions of its 1-bits (see Bits.Ones), and the
 * one-bit read-modify-writes the peripheral clock chains apply to them.
 */
module EnableRegisters {

  /** The three clock-enable registers of the RCC. */
  datatype EnableRegister = Apb1 | Apb2 | Ahb

  /** A clock gate: one bit of one enable register. */
  datatype Gate = Gate(reg: EnableRegister, bit: bv5)

  /** The 1-bits of APB1ENR, APB2ENR and AHBENR. */
  datatype EnableRegs = EnableRegs(apb1: set<bv5>, apb2: set<bv5>, ahb: set<bv5>)

  /** The 1-bits of one enable register. */
  function Get(r: EnableRegs, reg: EnableRegister): set<bv5>
  {
    match reg
    case Apb1 => r.apb1
    case Apb2 => r.apb2
    case Ahb => r.ahb
  }

  /** The registers after `reg` is written with `v`; the other two keep their value. */
  function Put(r: EnableRegs, reg: EnableRegister, v: set<bv5>): (r': EnableRegs)
    ensures Get(r', reg) == v
    ensures forall other :: other != reg ==> Get(r', other) == Get(r, other)
  {
    match reg
    case Apb1 => r.(apb1 := v)
    case Apb2 => r.(apb2 := v)
    case Ahb => r.(ahb := v)
  }

  /** Whether gate `g` is open: its bit is set. */
  predicate Open(r: EnableRegs, g: Gate)
  {
    g.bit in Get(r, g.reg)
  }

  /** The registers after `REG |= 1 << bit` on gate `g`: `g` open, every other gate as before. */
  function SetGate(r: EnableRegs, g: Gate): (r': EnableRegs)
    ensures Open(r', g)
    ensures forall h :: h != g ==> (Open(r', h) <==> Open(r, h))
  {
    Put(r, g.reg, Get(r, g.reg) + {g.bit})
  }

  /** The registers after `REG &= ~(1 << bit)` on gate `g`: `g` closed, every other gate as before. */
  function ClearGate(r: EnableRegs, g: Gate): (r': EnableRegs)
    ensures !Open(r', g)
    ensures forall h :: h != g ==> (Open(r', h) <==> Open(r, h))
  {
    Put(r, g.reg, Get(r, g.reg) - {g.bit})
  }

  /** Opening an open gate changes nothing; closing a closed gate changes nothing. */
  lemma GateWritesIdempotent(r: EnableRegs, g: Gate)
    ensures Open(r, g) ==> SetGate(r, g) == r
    ensures !Open(r, g) ==> ClearGate(r, g) == r
  {
    if Open(r, g) {
      assert Get(r, g.reg) + {g.bit} == Get(r, g.reg);
    } else {
      assert Get(r, g.reg) - {g.bit} == Get(r, g.reg);
    }
  }

  /** Closing a gate after opening it restores the registers when it was closed before. */
  lemma ClearUndoesSet(r: EnableRegs, g: Gate)
    requires !Open(r, g)
    ensures ClearGate(SetGate(r, g), g) == r
  {
    assert Get(r, g.reg) + {g.bit} - {g.bit} == Get(r, g.reg);
  }
}
