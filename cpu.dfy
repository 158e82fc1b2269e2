/** The CPU's registers, return stack and primitive operations (src/cpu.rs).
    The register file is a 16-byte array updated in place; the arithmetic
    primitives are specified by pure functions on its contents. */
module Cpu {
  import opened Types

  /** Address of the first program byte; `new` points PC here. */
  const PROGRAM_START: Addr := 0x200

  /** Index of VF, the flag register. */
  const VF: Reg := 0xF

  // Register-file updates, as the CPU performs them. Each writes the flag
  // first and then reads the operands again, so when VF is itself an
  // operand the result sees the new flag.

  /** `add`: VF := 1 when the unsigned sum carries (VF is never cleared),
      then V[r1] := V[r1] + V[r2] modulo 256. The carry test is written as
      "the wrapped sum is below an operand"; CarryIff relates it to the
      unbounded sum. */
  function AddFlagged(v: seq<u8>, r1: Reg, r2: Reg): (w: seq<u8>)
    requires |v| == 16
    ensures |w| == 16
    ensures forall r: Reg :: r != r1 && r != VF ==> w[r] == v[r]
  {
    var flagged := v[VF := if v[r1] + v[r2] < v[r1] then 1 else v[VF]];
    flagged[r1 := flagged[r1] + flagged[r2]]
  }

  /** `sub`: VF := 1 when V[r1] > V[r2] (VF is never cleared), then
      V[r1] := V[r1] - V[r2] modulo 256. */
  function SubFlagged(v: seq<u8>, r1: Reg, r2: Reg): (w: seq<u8>)
    requires |v| == 16
    ensures |w| == 16
    ensures forall r: Reg :: r != r1 && r != VF ==> w[r] == v[r]
  {
    var flagged := v[VF := if v[r1] > v[r2] then 1 else v[VF]];
    flagged[r1 := flagged[r1] - flagged[r2]]
  }

  /** `shift_right`: VF := the least significant bit of V[reg], then
      V[reg] := V[reg] >> 1. */
  function ShiftRightFlagged(v: seq<u8>, reg: Reg): (w: seq<u8>)
    requires |v| == 16
    ensures |w| == 16
    ensures forall r: Reg :: r != reg && r != VF ==> w[r] == v[r]
  {
    var flagged := v[VF := v[reg] & 0x01];
    flagged[reg := flagged[reg] >> 1]
  }

  /** `shift_left`: VF := V[reg] & 0x80 (so 0 or 128, not 0 or 1), then
      V[reg] := V[reg] << 1 modulo 256. */
  function ShiftLeftFlagged(v: seq<u8>, reg: Reg): (w: seq<u8>)
    requires |v| == 16
    ensures |w| == 16
    ensures forall r: Reg :: r != reg && r != VF ==> w[r] == v[r]
  {
    var flagged := v[VF := v[reg] & 0x80];
    flagged[reg := flagged[reg] << 1]
  }

  /** One timer tick: a non-zero timer counts down by one, zero stays zero. */
  function TickDown(t: u8): (t': u8)
    ensures t' as int == if t == 0 then 0 else t as int - 1
  {
    if t != 0 then t - 1 else t
  }

  /** `checked_add` fails exactly when the wrapped sum is below an operand. */
  lemma CarryIff(a: u8, b: u8)
    ensures (a as int + b as int > 255) <==> (a + b < a)
  {
  }

  /** AddFlagged as the two writes the CPU performs: the flag, then the result. */
  lemma AddFlaggedSteps(v: seq<u8>, r1: Reg, r2: Reg, flagged: seq<u8>, a: u8, b: u8)
    requires |v| == 16 && flagged == v[VF := if v[r1] + v[r2] < v[r1] then 1 else v[VF]]
    requires a == flagged[r1] && b == flagged[r2]
    ensures AddFlagged(v, r1, r2) == flagged[r1 := a + b]
  {
  }

  /** `add` on two ordinary registers: the wrapped sum lands in V[r1], VF
      becomes 1 on a carry and is otherwise left as it was, and no other
      register changes. */
  lemma AddSpec(v: seq<u8>, r1: Reg, r2: Reg)
    requires |v| == 16 && r1 != VF && r2 != VF
    ensures var w := AddFlagged(v, r1, r2);
      w[r1] == v[r1] + v[r2]
      && w[VF] == (if v[r1] as int + v[r2] as int > 255 then 1 else v[VF])
      && forall r: Reg :: r != r1 && r != VF ==> w[r] == v[r]
  {
    CarryIff(v[r1], v[r2]);
  }

  /** SubFlagged as the two writes the CPU performs: the flag, then the result. */
  lemma SubFlaggedSteps(v: seq<u8>, r1: Reg, r2: Reg, flagged: seq<u8>, a: u8, b: u8)
    requires |v| == 16 && flagged == v[VF := if v[r1] > v[r2] then 1 else v[VF]]
    requires a == flagged[r1] && b == flagged[r2]
    ensures SubFlagged(v, r1, r2) == flagged[r1 := a - b]
  {
  }

  /** `sub` on two ordinary registers: the wrapped difference lands in
      V[r1], VF becomes 1 when V[r1] > V[r2] and is otherwise left as it
      was, and no other register changes. */
  lemma SubSpec(v: seq<u8>, r1: Reg, r2: Reg)
    requires |v| == 16 && r1 != VF && r2 != VF
    ensures var w := SubFlagged(v, r1, r2);
      w[r1] == v[r1] - v[r2]
      && w[VF] == (if v[r1] as int > v[r2] as int then 1 else v[VF])
      && forall r: Reg :: r != r1 && r != VF ==> w[r] == v[r]
  {
  }

  /** With VF as the destination, `add` writes the carry first and then
      adds into that carry: on a carry (see CarryIff) VF ends up 1 + V[r2]. */
  lemma AddIntoFlag(v: seq<u8>, r2: Reg)
    requires |v| == 16 && r2 != VF && v[VF] + v[r2] < v[VF]
    ensures AddFlagged(v, VF, r2)[VF] == 1 + v[r2]
  {
    AddFlaggedSteps(v, VF, r2, v[VF := 1], 1, v[r2]);
  }

  /** `add` and `sub` only ever raise the flag: a flag already at 1 stays 1
      whenever the destination is not VF. */
  lemma FlagNeverCleared(v: seq<u8>, r1: Reg, r2: Reg)
    requires |v| == 16 && r1 != VF && v[VF] == 1
    ensures AddFlagged(v, r1, r2)[VF] == 1 && SubFlagged(v, r1, r2)[VF] == 1
  {
  }

  /** `shift_right` on an ordinary register: VF gets its low bit (0 or 1),
      the register is halved, and no other register changes. */
  lemma ShiftRightSpec(v: seq<u8>, reg: Reg)
    requires |v| == 16 && reg != VF
    ensures var w := ShiftRightFlagged(v, reg);
      w[VF] as int == v[reg] as int % 2
      && w[reg] as int == v[reg] as int / 2
      && forall r: Reg :: r != reg && r != VF ==> w[r] == v[r]
  {
    ShiftRightBits(v[reg]);
  }

  /** The bits `shift_right` keeps, as numbers. */
  lemma ShiftRightBits(a: u8)
    ensures (a & 0x01) as int == a as int % 2 && (a >> 1) as int == a as int / 2
  {
  }

  /** `shift_left` on an ordinary register: VF gets 0x80 when the top bit
      was set and 0 otherwise, the register is doubled modulo 256, and no
      other register changes. */
  lemma ShiftLeftSpec(v: seq<u8>, reg: Reg)
    requires |v| == 16 && reg != VF
    ensures var w := ShiftLeftFlagged(v, reg);
      w[VF] == (if v[reg] as int >= 128 then 0x80 else 0)
      && w[reg] as int == (2 * v[reg] as int) % 256
      && forall r: Reg :: r != reg && r != VF ==> w[r] == v[r]
  {
    ShiftLeftBits(v[reg]);
  }

  /** The bits `shift_left` keeps, as numbers. */
  lemma ShiftLeftBits(a: u8)
    ensures (a & 0x80) == (if a as int >= 128 then 0x80 else 0)
    ensures (a << 1) as int == (2 * a as int) % 256
  {
  }

  /** Shifting VF itself: the flag is written first and then shifted out,
      so VF always ends up 0. */
  lemma ShiftFlagRegister(v: seq<u8>)
    requires |v| == 16
    ensures ShiftRightFlagged(v, VF)[VF] == 0 && ShiftLeftFlagged(v, VF)[VF] == 0
  {
  }

  /** The interpreter's 16 registers, stack pointer and return stack. */
  class Cpu {
    /** General purpose registers V0 to VF. */
    const vx: array<u8>
    /** The address register. */
    var i: Addr
    /** Delay timer. */
    var dt: u8
    /** Sound timer. */
    var st: u8
    /** Program counter. */
    var pc: Addr
    /** Index of the topmost used stack slot. */
    var sp: nat
    /** Return addresses: 16 slots, of which `call` uses 1 to 15. */
    var stack: seq<Addr>

    ghost predicate Valid()
      reads this
    {
      vx.Length == 16 && |stack| == 16 && sp < 16
    }

    /** All registers zero, PC at the program start, an empty stack of 16 zero slots. */
    constructor ()
      ensures Valid() && fresh(vx)
      ensures vx[..] == seq(16, _ => 0)
      ensures i == 0 && dt == 0 && st == 0 && pc == PROGRAM_START && sp == 0
      ensures stack == seq(16, _ => 0)
    {
      vx := new u8[16](_ => 0);
      i, dt, st := 0, 0, 0;
      pc, sp := PROGRAM_START, 0;
      stack := seq(16, _ => 0);
    }

    /** Reads register Vx. */
    method GetVx(x: Reg) returns (b: u8)
      requires Valid()
      ensures b == vx[x]
    {
      b := vx[x];
    }

    /** Writes register Vx; no other register changes. */
    method SetVx(x: Reg, b: u8)
      requires Valid()
      modifies vx
      ensures vx[..] == old(vx[..])[x := b]
    {
      vx[x] := b;
    }

    /** Adds a byte to Vx modulo 256, leaving VF alone. */
    method AddVx(x: Reg, b: u8)
      requires Valid()
      modifies vx
      ensures vx[..] == old(vx[..])[x := old(vx[x]) + b]
    {
      vx[x] := vx[x] + b;
    }

    /** DT := V[reg]. */
    method SetDt(reg: Reg)
      requires Valid()
      modifies this`dt
      ensures dt == vx[reg]
    {
      dt := GetVx(reg);
    }

    /** ST := V[reg]. */
    method SetSt(reg: Reg)
      requires Valid()
      modifies this`st
      ensures st == vx[reg]
    {
      st := GetVx(reg);
    }

    /** I := addr. */
    method SetI(addr: Addr)
      modifies this`i
      ensures i == addr
    {
      i := addr;
    }

    /** PC := the address saved in the top slot, then pops it. Popping
        the empty stack would underflow `sp`, so it needs a saved slot. */
    method SubroutineReturn()
      requires Valid() && sp >= 1
      modifies this`pc, this`sp
      ensures Valid()
      ensures pc == stack[old(sp)] && sp == old(sp) - 1
    {
      pc := stack[sp];
      sp := sp - 1;
    }

    /** PC := addr - 2, so that the PC += 2 after every instruction lands
        on addr. An address below 2 would underflow. */
    method Jump(addr: Addr)
      requires addr >= 2
      modifies this`pc
      ensures pc == addr - 2
    {
      pc := addr - 2;
    }

    /** Pushes PC onto slot sp + 1 (the stack pointer is pre-incremented),
        then jumps. Slot 16 does not exist, so sp must be below 15. */
    method Call(addr: Addr)
      requires Valid() && sp < 15 && addr >= 2
      modifies this`sp, this`stack, this`pc
      ensures Valid()
      ensures sp == old(sp) + 1 && stack == old(stack)[sp := old(pc)]
      ensures pc == addr - 2
    {
      sp := sp + 1;
      stack := stack[sp := pc];
      Jump(addr);
    }

    /** PC += 2; the 16-bit PC must not overflow. */
    method SkipInstruction()
      requires pc + 2 < 0x1_0000
      modifies this`pc
      ensures pc == old(pc) + 2
    {
      pc := pc + 2;
    }

    /** VF := 1 when `raise` holds; otherwise nothing changes. */
    method RaiseFlagIf(raise: bool)
      requires Valid()
      modifies vx
      ensures vx[..] == old(vx[..])[VF := if raise then 1 else old(vx[VF])]
    {
      if raise {
        SetVx(VF, 1);
      }
    }

    /** V[reg1] := V[reg1] + V[reg2], raising VF on a carry. */
    method Add(reg1: Reg, reg2: Reg)
      requires Valid()
      modifies vx
      ensures vx[..] == AddFlagged(old(vx[..]), reg1, reg2)
    {
      ghost var v := vx[..];
      var a := GetVx(reg1);
      var b := GetVx(reg2);
      RaiseFlagIf(a + b < a);
      ghost var flagged := vx[..];
      a := GetVx(reg1);
      b := GetVx(reg2);
      AddFlaggedSteps(v, reg1, reg2, flagged, a, b);
      SetVx(reg1, a + b);
    }

    /** V[reg1] := V[reg1] - V[reg2], raising VF when V[reg1] > V[reg2]. */
    method Sub(reg1: Reg, reg2: Reg)
      requires Valid()
      modifies vx
      ensures vx[..] == SubFlagged(old(vx[..]), reg1, reg2)
    {
      ghost var v := vx[..];
      var a := GetVx(reg1);
      var b := GetVx(reg2);
      RaiseFlagIf(a > b);
      ghost var flagged := vx[..];
      a := GetVx(reg1);
      b := GetVx(reg2);
      SubFlaggedSteps(v, reg1, reg2, flagged, a, b);
      SetVx(reg1, a - b);
    }

    /** VF := V[reg] & 1, then V[reg] := V[reg] >> 1. */
    method ShiftRight(reg: Reg)
      requires Valid()
      modifies vx
      ensures vx[..] == ShiftRightFlagged(old(vx[..]), reg)
    {
      var a := GetVx(reg);
      SetVx(VF, a & 0x01);
      a := GetVx(reg);
      SetVx(reg, a >> 1);
    }

    /** VF := V[reg] & 0x80, then V[reg] := V[reg] << 1. */
    method ShiftLeft(reg: Reg)
      requires Valid()
      modifies vx
      ensures vx[..] == ShiftLeftFlagged(old(vx[..]), reg)
    {
      var a := GetVx(reg);
      SetVx(VF, a & 0x80);
      a := GetVx(reg);
      SetVx(reg, a << 1);
    }

    /** I := the address of the glyph for digit `b` (5 bytes per glyph).
        The product is a `u8`, so `b` must be at most 51. */
    method SetSpriteI(b: u8)
      requires b <= 51
      modifies this`i
      ensures i == 5 * b as int
    {
      SetI((b * 5) as int);
    }

    /** Both timers count down by one, stopping at zero. */
    method TickTimers()
      modifies this`dt, this`st
      ensures dt == TickDown(old(dt)) && st == TickDown(old(st))
    {
      if dt != 0 {
        dt := dt - 1;
      }
      if st != 0 {
        st := st - 1;
      }
    }
  }
}
