/** The interpreter (src/chip8.rs): ROM loading, fetch, decode and the
    execution of one instruction against the CPU, the RAM and the
    framebuffer. The methods of class Chip8 are proved against pure
    functions on a snapshot of the whole machine, MachineState. */
module Chip8 {
  import opened Types
  import opened Instructions
  import Cpu
  import Memory
  import Display
  import Sprite

  /** Everything one instruction can read or change. */
  datatype MachineState = MachineState(
    v: seq<u8>,        // V0 to VF
    i: Addr,           // I
    dt: u8,            // delay timer
    st: u8,            // sound timer
    pc: Addr,          // program counter
    sp: nat,           // stack pointer
    stack: seq<Addr>,  // return stack
    ram: seq<u8>,      // 4 KiB RAM
    coord: seq<u8>)    // 64x32 framebuffer

  predicate WellShaped(s: MachineState)
  {
    |s.v| == 16 && |s.stack| == 16 && s.sp < 16
    && |s.ram| == Memory.RAM_SIZE && |s.coord| == Sprite.PIXELS
  }

  /** The machine right after `Chip8::new`. */
  function Initial(): (s: MachineState)
    ensures WellShaped(s)
  {
    MachineState(seq(16, _ => 0), 0, 0, 0, Cpu.PROGRAM_START, 0, seq(16, _ => 0),
      Memory.InitialRam(), Display.Blank())
  }

  /** A register field of a well-formed instruction, as an index. */
  function RegOf(b: u8): Reg
    requires b < 16
  {
    b as int
  }

  /** An address field of an instruction, as an address. */
  function AddrOf(a: u16): Addr
  {
    a as int
  }

  /** `m` with `data` written from address `at` on. */
  function Overlay(m: seq<u8>, at: nat, data: seq<u8>): (r: seq<u8>)
    requires |data| == 0 || at + |data| <= |m|
    ensures |r| == |m|
    ensures forall k :: 0 <= k < |data| ==> r[at + k] == data[k]
    ensures forall a :: 0 <= a < |m| && !(at <= a < at + |data|) ==> r[a] == m[a]
  {
    seq(|m|, a requires 0 <= a < |m| => if at <= a < at + |data| then data[a - at] else m[a])
  }

  /** The RAM after Fx55: V0..V[count-1] written from address i on. */
  function Stored(ram: seq<u8>, v: seq<u8>, i: nat, count: nat): (r: seq<u8>)
    requires |v| == 16 && count <= 16 && i + count <= |ram|
    ensures |r| == |ram|
  {
    Overlay(ram, i, v[..count])
  }

  /** The registers after Fx65: V0..V[count-1] read from address i on,
      the others unchanged. */
  function Loaded(v: seq<u8>, ram: seq<u8>, i: nat, count: nat): (r: seq<u8>)
    requires |v| == 16 && count <= 16 && i + count <= |ram|
    ensures |r| == 16
  {
    seq(16, k requires 0 <= k < 16 => if k < count then ram[i + k] else v[k])
  }

  /** The three decimal digits of a byte, most significant first, as the
      interpreter computes them in `u8` arithmetic. */
  function BcdDigits(value: u8): (d: (u8, u8, u8))
    ensures d.0 < 10 && d.1 < 10 && d.2 < 10
    ensures d.0 as int * 100 + d.1 as int * 10 + d.2 as int == value as int
  {
    (value / 100, (value % 100) / 10, value % 10)
  }

  // The instruction groups, each handled by one function and one method.

  predicate IsControl(inst: Instruction)
  {
    inst.Return? || inst.Jump? || inst.Call? || inst.JumpPlusV0?
  }

  predicate IsSkip(inst: Instruction)
  {
    inst.SkipIfEqualsByte? || inst.SkipIfNotEqualsByte? || inst.SkipIfEquals?
    || inst.SkipIfNotEquals? || inst.SkipIfKeyPressed? || inst.SkipIfKeyNotPressed?
  }

  predicate IsLoad(inst: Instruction)
  {
    inst.SetRegisterByte? || inst.AddByte? || inst.SetRegister? || inst.Or? || inst.And?
    || inst.Xor? || inst.SetRandAnd? || inst.SetToDelayTimer? || inst.GetKeyPress?
  }

  predicate IsFlagged(inst: Instruction)
  {
    inst.Add? || inst.Sub? || inst.DivTwo? || inst.ReverseSub? || inst.MultTwo?
  }

  predicate IsTimerOrI(inst: Instruction)
  {
    inst.SetDelayTimer? || inst.SetSoundTimer? || inst.SetI? || inst.AddRegisterI?
    || inst.SetSpriteI?
  }

  predicate IsBlock(inst: Instruction)
  {
    inst.BCDRepresentation? || inst.CopyRegistersMemory? || inst.SetRegistersMemory?
  }

  // What each group needs of the instruction and the state to run
  // without panicking: register fields below 16 (the register array has
  // 16 entries), no `u16` underflow in `addr - 2` or overflow in an
  // address sum, a stack slot to pop or push, and every RAM index below
  // 0x1000. An instruction that Decode returns always has its fields in
  // range (the contract of Decode); the state conditions are the caller's.

  predicate ControlDefined(s: MachineState, inst: Instruction)
    requires WellShaped(s)
  {
    IsControl(inst)
    && (inst.Return? ==> s.sp >= 1)
    && (!inst.Return? ==> inst.addr < 0x1000)
    && (inst.Jump? ==> AddrOf(inst.addr) >= 2)
    && (inst.Call? ==> s.sp < 15 && AddrOf(inst.addr) >= 2)
    && (inst.JumpPlusV0? ==> AddrOf(inst.addr) + s.v[0] as int >= 2)
  }

  predicate SkipDefined(s: MachineState, inst: Instruction)
  {
    IsSkip(inst) && inst.x < 16
    && ((inst.SkipIfEquals? || inst.SkipIfNotEquals?) ==> inst.y < 16)
    && s.pc + 2 < 0x1_0000
  }

  predicate LoadDefined(inst: Instruction)
  {
    IsLoad(inst) && inst.x < 16
    && ((inst.SetRegister? || inst.Or? || inst.And? || inst.Xor?) ==> inst.y < 16)
  }

  predicate FlaggedDefined(inst: Instruction)
  {
    IsFlagged(inst) && inst.x < 16
    && ((inst.Add? || inst.Sub? || inst.ReverseSub?) ==> inst.y < 16)
  }

  /** Fx29 multiplies in `u8`, so its operand must not exceed 51. */
  predicate TimerDefined(s: MachineState, inst: Instruction)
    requires WellShaped(s)
  {
    IsTimerOrI(inst)
    && if inst.SetI? then inst.addr < 0x1000
       else if inst.SetSpriteI? then inst.byte <= 51
       else inst.x < 16 && (inst.AddRegisterI? ==> s.i + s.v[inst.x] as int < 0x1_0000)
  }

  predicate BlockDefined(s: MachineState, inst: Instruction)
  {
    IsBlock(inst) && inst.x < 16
    && if inst.BCDRepresentation? then s.i + 2 < Memory.RAM_SIZE
       else s.i + inst.x as int < Memory.RAM_SIZE
  }

  predicate DisplayDefined(s: MachineState, inst: Instruction)
  {
    inst.ClearDisplay?
    || (inst.Draw? && inst.x < 16 && inst.y < 16 && inst.n < 16
        && (inst.n == 0 || s.i + inst.n as int <= Memory.RAM_SIZE))
  }

  /** What the interpreter needs to run an instruction's own step. */
  predicate DispatchDefined(s: MachineState, inst: Instruction)
  {
    WellShaped(s)
    && if IsControl(inst) then ControlDefined(s, inst)
       else if IsSkip(inst) then SkipDefined(s, inst)
       else if IsLoad(inst) then LoadDefined(inst)
       else if IsFlagged(inst) then FlaggedDefined(inst)
       else if IsTimerOrI(inst) then TimerDefined(s, inst)
       else if IsBlock(inst) then BlockDefined(s, inst)
       else DisplayDefined(s, inst)
  }

  /** Return, jumps and call: the `pc = addr - 2` convention. */
  function ControlStep(s: MachineState, inst: Instruction): (r: MachineState)
    requires WellShaped(s) && ControlDefined(s, inst)
    ensures WellShaped(r)
    ensures r.(pc := s.pc, sp := s.sp, stack := s.stack) == s
  {
    if inst.Return? then s.(pc := s.stack[s.sp], sp := s.sp - 1)
    else if inst.Jump? then s.(pc := AddrOf(inst.addr) - 2)
    else if inst.Call? then
      s.(sp := s.sp + 1, stack := s.stack[s.sp + 1 := s.pc], pc := AddrOf(inst.addr) - 2)
    else s.(pc := AddrOf(inst.addr) + s.v[0] as int - 2)
  }

  /** Whether a skip instruction's condition holds; `key` is the key the
      window reports as pressed, if any. */
  predicate SkipTaken(s: MachineState, inst: Instruction, key: Option<u8>)
    requires WellShaped(s) && SkipDefined(s, inst)
  {
    var vx := s.v[RegOf(inst.x)];
    if inst.SkipIfEqualsByte? then vx == inst.kk
    else if inst.SkipIfNotEqualsByte? then vx != inst.kk
    else if inst.SkipIfEquals? then vx == s.v[RegOf(inst.y)]
    else if inst.SkipIfNotEquals? then vx != s.v[RegOf(inst.y)]
    else if inst.SkipIfKeyPressed? then key == Some(vx)
    else key != Some(vx)
  }

  /** The skips: one extra PC += 2 when the condition holds. */
  function SkipStep(s: MachineState, inst: Instruction, key: Option<u8>): (r: MachineState)
    requires WellShaped(s) && SkipDefined(s, inst)
    ensures WellShaped(r)
    ensures r.(pc := s.pc) == s && (r.pc == s.pc || r.pc == s.pc + 2)
  {
    if SkipTaken(s, inst, key) then s.(pc := s.pc + 2) else s
  }

  /** The value a register load writes into Vx; `rnd` is the random byte
      of Cxkk and `key` the key that ended the wait of Fx0A. */
  function LoadedValue(s: MachineState, inst: Instruction, key: Option<u8>, rnd: u8): u8
    requires WellShaped(s) && LoadDefined(inst)
  {
    if inst.SetRegisterByte? then inst.kk
    else if inst.AddByte? then s.v[RegOf(inst.x)] + inst.kk
    else if inst.SetRegister? then s.v[RegOf(inst.y)]
    else if inst.Or? then s.v[RegOf(inst.x)] | s.v[RegOf(inst.y)]
    else if inst.And? then s.v[RegOf(inst.x)] & s.v[RegOf(inst.y)]
    else if inst.Xor? then s.v[RegOf(inst.x)] ^ s.v[RegOf(inst.y)]
    else if inst.SetRandAnd? then inst.kk & rnd
    else if inst.SetToDelayTimer? then s.dt
    else if key.Some? then key.value
    else s.v[RegOf(inst.x)]
  }

  /** The register loads: Vx := LoadedValue, nothing else changes. */
  function LoadStep(s: MachineState, inst: Instruction, key: Option<u8>, rnd: u8): (r: MachineState)
    requires WellShaped(s) && LoadDefined(inst)
    ensures WellShaped(r)
    ensures r.(v := s.v) == s && forall k: Reg :: k != inst.x as int ==> r.v[k] == s.v[k]
  {
    s.(v := s.v[RegOf(inst.x) := LoadedValue(s, inst, key, rnd)])
  }

  /** The arithmetic that sets VF; 8xy7 subtracts Vx from Vy into Vy. */
  function FlaggedStep(s: MachineState, inst: Instruction): (r: MachineState)
    requires WellShaped(s) && FlaggedDefined(inst)
    ensures WellShaped(r)
    ensures r.(v := s.v) == s
  {
    var x := RegOf(inst.x);
    if inst.Add? then s.(v := Cpu.AddFlagged(s.v, x, RegOf(inst.y)))
    else if inst.Sub? then s.(v := Cpu.SubFlagged(s.v, x, RegOf(inst.y)))
    else if inst.DivTwo? then s.(v := Cpu.ShiftRightFlagged(s.v, x))
    else if inst.ReverseSub? then s.(v := Cpu.SubFlagged(s.v, RegOf(inst.y), x))
    else s.(v := Cpu.ShiftLeftFlagged(s.v, x))
  }

  /** Timers and I. Fx29 passes the register index itself, not Vx. */
  function TimerStep(s: MachineState, inst: Instruction): (r: MachineState)
    requires WellShaped(s) && TimerDefined(s, inst)
    ensures WellShaped(r)
    ensures r.(i := s.i, dt := s.dt, st := s.st) == s
  {
    if inst.SetI? then s.(i := AddrOf(inst.addr))
    else if inst.SetSpriteI? then s.(i := 5 * inst.byte as int)
    else if inst.SetDelayTimer? then s.(dt := s.v[RegOf(inst.x)])
    else if inst.SetSoundTimer? then s.(st := s.v[RegOf(inst.x)])
    else s.(i := (s.i + s.v[RegOf(inst.x)] as int) % 0x1000)
  }

  /** BCD store, register block store and register block load. */
  function BlockStep(s: MachineState, inst: Instruction): (r: MachineState)
    requires WellShaped(s) && BlockDefined(s, inst)
    ensures WellShaped(r)
    ensures r.(v := s.v, ram := s.ram) == s
  {
    if inst.BCDRepresentation? then BcdStep(s, RegOf(inst.x))
    else if inst.CopyRegistersMemory? then s.(ram := Stored(s.ram, s.v, s.i, RegOf(inst.x) + 1))
    else s.(v := Loaded(s.v, s.ram, s.i, RegOf(inst.x) + 1))
  }

  /** Fx33: the decimal digits of Vx at I, I + 1 and I + 2. */
  function BcdStep(s: MachineState, x: Reg): (r: MachineState)
    requires WellShaped(s) && s.i + 2 < Memory.RAM_SIZE
    ensures WellShaped(r)
    ensures r.(ram := s.ram) == s
  {
    var d := BcdDigits(s.v[x]);
    s.(ram := s.ram[s.i := d.0][s.i + 1 := d.1][s.i + 2 := d.2])
  }

  /** The n sprite bytes Dxyn reads from `ram`, from address `at` on. */
  function SpriteBytes(ram: seq<u8>, at: nat, n: u8): (sprite: seq<u8>)
    requires n < 16 && (n == 0 || at + n as int <= |ram|)
    ensures |sprite| == n as int && |sprite| <= Sprite.MAX_ROWS
    ensures forall j :: 0 <= j < n as int ==> sprite[j] == ram[at + j]
  {
    if n == 0 then [] else ram[at..at + n as int]
  }

  /** The sprite of Dxyn, from address I on. */
  function SpriteAt(s: MachineState, n: u8): (sprite: seq<u8>)
    requires WellShaped(s) && n < 16 && (n == 0 || s.i + n as int <= Memory.RAM_SIZE)
    ensures |sprite| == n as int && |sprite| <= Sprite.MAX_ROWS
  {
    SpriteBytes(s.ram, s.i, n)
  }

  /** Clear, and the sprite draw: the framebuffer becomes the XOR fold of
      the sprite at (Vx, Vy), then VF := the collision flag. */
  function DisplayStep(s: MachineState, inst: Instruction): (r: MachineState)
    requires WellShaped(s) && DisplayDefined(s, inst)
    ensures WellShaped(r)
    ensures r.(v := s.v, coord := s.coord) == s
  {
    if inst.ClearDisplay? then s.(coord := Display.Blank())
    else
      var sprite := SpriteAt(s, inst.n);
      var px, py := s.v[RegOf(inst.x)] as int, s.v[RegOf(inst.y)] as int;
      s.(coord := Sprite.DrawFold(s.coord, sprite, px, py, 8 * |sprite|),
         v := s.v[Cpu.VF := Sprite.Collision(s.coord, sprite, px, py, 8 * |sprite|)])
  }

  /** The effect of an instruction's match arm, before the final PC += 2. */
  function Dispatch(s: MachineState, inst: Instruction, key: Option<u8>, rnd: u8): (r: MachineState)
    requires DispatchDefined(s, inst)
    ensures WellShaped(r)
  {
    if IsControl(inst) then ControlStep(s, inst)
    else if IsSkip(inst) then SkipStep(s, inst, key)
    else if IsLoad(inst) then LoadStep(s, inst, key, rnd)
    else if IsFlagged(inst) then FlaggedStep(s, inst)
    else if IsTimerOrI(inst) then TimerStep(s, inst)
    else if IsBlock(inst) then BlockStep(s, inst)
    else DisplayStep(s, inst)
  }

  /** Fx0A without a key: the interpreter is still polling the window, and
      nothing has changed yet. */
  predicate Waiting(inst: Instruction, key: Option<u8>)
  {
    inst.GetKeyPress? && key.None?
  }

  /** What running an instruction needs: its own step, and room for the
      final PC += 2 in a `u16`. */
  predicate ExecDefined(s: MachineState, inst: Instruction, key: Option<u8>, rnd: u8)
  {
    DispatchDefined(s, inst)
    && (Waiting(inst, key) || Dispatch(s, inst, key, rnd).pc + 2 < 0x1_0000)
  }

  /** `run_instruction`: the instruction's step, then PC += 2. */
  function Exec(s: MachineState, inst: Instruction, key: Option<u8>, rnd: u8): (r: MachineState)
    requires ExecDefined(s, inst, key, rnd)
    ensures WellShaped(r)
  {
    if Waiting(inst, key) then s
    else
      var d := Dispatch(s, inst, key, rnd);
      d.(pc := d.pc + 2)
  }

  /** The 16-bit word with high byte `ms` and low byte `ls`: it splits
      back into the two bytes. */
  function Word16(ms: u8, ls: u8): (w: u16)
    ensures (w >> 8) as u8 == ms && (w & 0xFF) as u8 == ls
  {
    ((ms as u16) << 8) + ls as u16
  }

  /** The opcode at pc, big-endian: RAM[pc] is the high byte and
      RAM[pc + 1] the low byte. */
  function Opcode(ram: seq<u8>, pc: Addr): (w: u16)
    requires |ram| == Memory.RAM_SIZE && pc + 1 < Memory.RAM_SIZE
    ensures (w >> 8) as u8 == ram[pc] && (w & 0xFF) as u8 == ram[pc + 1]
  {
    Word16(ram[pc], ram[pc + 1])
  }

  /** What a fetch-and-run step needs: both opcode bytes in RAM and, when
      the opcode decodes, what running it needs. */
  predicate StepDefined(s: MachineState, key: Option<u8>, rnd: u8)
  {
    WellShaped(s) && s.pc + 1 < Memory.RAM_SIZE
    && match Decode(Opcode(s.ram, s.pc))
       case None => true
       case Some(inst) => ExecDefined(s, inst, key, rnd)
  }

  /** `run_next_instruction`: fetch, decode and run; an opcode that does
      not decode changes nothing, not even PC. */
  function Step(s: MachineState, key: Option<u8>, rnd: u8): (r: MachineState)
    requires StepDefined(s, key, rnd)
    ensures WellShaped(r)
  {
    match Decode(Opcode(s.ram, s.pc))
    case None => s
    case Some(inst) => Exec(s, inst, key, rnd)
  }

  class Chip8 {
    const ram: Memory.Memory
    const cpu: Cpu.Cpu
    const display: Display.Display

    ghost predicate Valid()
      reads this, ram, cpu, display
    {
      ram.Valid() && cpu.Valid() && display.Valid() && ram.ram != cpu.vx
    }

    /** The machine as a value. */
    ghost function State(): (s: MachineState)
      reads this, ram, ram.ram, cpu, cpu.vx, display
      requires Valid()
      ensures WellShaped(s)
    {
      MachineState(cpu.vx[..], cpu.i, cpu.dt, cpu.st, cpu.pc, cpu.sp, cpu.stack,
        ram.ram[..], display.coord)
    }

    /** Font loaded, registers zero, PC at 0x200, blank screen. */
    constructor ()
      ensures Valid() && State() == Initial()
    {
      ram := new Memory.Memory();
      cpu := new Cpu.Cpu();
      display := new Display.Display();
    }

    /** Copies the ROM into RAM from the current PC on. Every byte must land
        below 0x1000. */
    method LoadRom(rom: seq<u8>)
      requires Valid() && (|rom| == 0 || cpu.pc + |rom| <= Memory.RAM_SIZE)
      modifies ram.ram
      ensures Valid()
      ensures State() == old(State()).(ram := Overlay(old(State()).ram, cpu.pc, rom))
    {
      var currPc := cpu.pc;
      var i := 0;
      while i < |rom|
        invariant 0 <= i <= |rom|
        invariant ram.ram[..] == Overlay(old(ram.ram[..]), currPc, rom[..i])
      {
        ram.WriteByte(currPc + i, rom[i]);
        i := i + 1;
      }
      assert rom[..i] == rom;
      assert cpu.vx[..] == old(cpu.vx[..]);
    }

    /** Reads the two opcode bytes at PC and decodes them. */
    method GetNextInstruction() returns (inst: Option<Instruction>)
      requires Valid() && cpu.pc + 1 < Memory.RAM_SIZE
      ensures inst == Decode(Opcode(ram.ram[..], cpu.pc))
    {
      var currPc := cpu.pc;
      var msByte := ram.ReadByte(currPc);
      var lsByte := ram.ReadByte(currPc + 1);
      var opcode := Word16(msByte, lsByte);
      inst := Decode(opcode);
    }

    /** Fetches, decodes and runs one instruction; `key` is the key the
        window reports as pressed and `rnd` the random byte for Cxkk. */
    method RunNextInstruction(key: Option<u8>, rnd: u8)
      requires Valid() && StepDefined(State(), key, rnd)
      modifies cpu, cpu.vx, ram.ram, display
      ensures Valid() && State() == Step(old(State()), key, rnd)
    {
      var next := GetNextInstruction();
      if next.Some? {
        RunInstruction(next.value, key, rnd);
      }
    }

    /** Runs one instruction, then PC += 2. Fx0A without a key returns at
        once: the interpreter would still be polling. */
    method RunInstruction(inst: Instruction, key: Option<u8>, rnd: u8)
      requires Valid() && ExecDefined(State(), inst, key, rnd)
      modifies cpu, cpu.vx, ram.ram, display
      ensures Valid() && State() == Exec(old(State()), inst, key, rnd)
    {
      if Waiting(inst, key) {
        return;
      }
      RunArm(inst, key, rnd);
      cpu.SkipInstruction();
    }

    /** The match arm for `inst`. */
    method RunArm(inst: Instruction, key: Option<u8>, rnd: u8)
      requires Valid() && DispatchDefined(State(), inst)
      modifies cpu, cpu.vx, ram.ram, display
      ensures Valid() && State() == Dispatch(old(State()), inst, key, rnd)
    {
      if IsControl(inst) || IsSkip(inst) || IsLoad(inst) || IsFlagged(inst) {
        RunRegisterArm(inst, key, rnd);
      } else {
        RunPeripheralArm(inst);
      }
    }

    /** The arms that touch only V, PC and the stack. */
    method RunRegisterArm(inst: Instruction, key: Option<u8>, rnd: u8)
      requires Valid() && DispatchDefined(State(), inst)
      requires IsControl(inst) || IsSkip(inst) || IsLoad(inst) || IsFlagged(inst)
      modifies cpu, cpu.vx
      ensures Valid() && State() == Dispatch(old(State()), inst, key, rnd)
    {
      if IsControl(inst) {
        RunControl(inst);
      } else if IsSkip(inst) {
        RunSkip(inst, key);
      } else if IsLoad(inst) {
        RunLoad(inst, key, rnd);
      } else {
        RunFlagged(inst);
      }
    }

    /** The arms that touch the timers, I, the RAM or the framebuffer;
        none of them reads the key or the random byte. */
    method RunPeripheralArm(inst: Instruction)
      requires Valid() && DispatchDefined(State(), inst)
      requires !(IsControl(inst) || IsSkip(inst) || IsLoad(inst) || IsFlagged(inst))
      modifies cpu, cpu.vx, ram.ram, display
      ensures Valid() && State() == Dispatch(old(State()), inst, None, 0)
    {
      if IsTimerOrI(inst) {
        RunTimer(inst);
      } else if IsBlock(inst) {
        RunBlock(inst);
      } else {
        RunDisplay(inst);
      }
    }

    method RunControl(inst: Instruction)
      requires Valid() && ControlDefined(State(), inst)
      modifies cpu
      ensures Valid() && State() == ControlStep(old(State()), inst)
    {
      if inst.Return? {
        ReturnFromSubroutine();
      } else if inst.Jump? {
        JumpTo(AddrOf(inst.addr));
      } else if inst.Call? {
        CallSubroutine(AddrOf(inst.addr));
      } else {
        JumpPlusV0(AddrOf(inst.addr));
      }
    }

    /** 00EE: PC := the saved address, and the slot is popped. */
    method ReturnFromSubroutine()
      requires Valid() && cpu.sp >= 1
      modifies cpu
      ensures Valid()
      ensures var s := old(State()); State() == s.(pc := s.stack[s.sp], sp := s.sp - 1)
    {
      cpu.SubroutineReturn();
    }

    /** 1nnn: PC := target - 2. */
    method JumpTo(target: Addr)
      requires Valid() && target >= 2
      modifies cpu
      ensures Valid() && State() == old(State()).(pc := target - 2)
    {
      cpu.Jump(target);
    }

    /** 2nnn: PC pushed onto slot sp + 1, then PC := target - 2. */
    method CallSubroutine(target: Addr)
      requires Valid() && target >= 2 && cpu.sp < 15
      modifies cpu
      ensures Valid()
      ensures var s := old(State());
        State() == s.(sp := s.sp + 1, stack := s.stack[s.sp + 1 := s.pc], pc := target - 2)
    {
      cpu.Call(target);
    }

    /** Bnnn: PC := addr + V0 - 2. */
    method JumpPlusV0(addr: Addr)
      requires Valid() && addr < 0x1000 && addr + cpu.vx[0] as int >= 2
      modifies cpu
      ensures Valid() && State() == old(State()).(pc := addr + old(State()).v[0] as int - 2)
    {
      var v0 := cpu.GetVx(0);
      cpu.Jump(addr + v0 as int);
    }

    method RunSkip(inst: Instruction, key: Option<u8>)
      requires Valid() && SkipDefined(State(), inst)
      modifies cpu
      ensures Valid() && State() == SkipStep(old(State()), inst, key)
    {
      var taken := SkipCondition(inst, key);
      if taken {
        cpu.SkipInstruction();
      }
      assert cpu.vx[..] == old(cpu.vx[..]) && ram.ram[..] == old(ram.ram[..]);
    }

    /** The condition of a skip instruction, read from the registers. */
    method SkipCondition(inst: Instruction, key: Option<u8>) returns (taken: bool)
      requires Valid() && SkipDefined(State(), inst)
      ensures taken == SkipTaken(State(), inst, key)
    {
      ghost var s := State();
      assert s.v == cpu.vx[..];
      var a := cpu.GetVx(RegOf(inst.x));
      if inst.SkipIfEqualsByte? {
        taken := a == inst.kk;
      } else if inst.SkipIfNotEqualsByte? {
        taken := a != inst.kk;
      } else if inst.SkipIfEquals? {
        var b := cpu.GetVx(RegOf(inst.y));
        taken := a == b;
      } else if inst.SkipIfNotEquals? {
        var b := cpu.GetVx(RegOf(inst.y));
        taken := a != b;
      } else if inst.SkipIfKeyPressed? {
        taken := key == Some(a);
      } else {
        taken := key != Some(a);
      }
    }

    method RunLoad(inst: Instruction, key: Option<u8>, rnd: u8)
      requires Valid() && LoadDefined(inst)
      modifies cpu.vx
      ensures Valid() && State() == LoadStep(old(State()), inst, key, rnd)
    {
      if inst.AddByte? {
        cpu.AddVx(RegOf(inst.x), inst.kk);
      } else {
        var value := LoadValue(inst, key, rnd);
        cpu.SetVx(RegOf(inst.x), value);
      }
    }

    /** The value a register load other than 7xkk writes, read from the
        registers, the delay timer, the instruction, the key or the random
        byte. */
    method LoadValue(inst: Instruction, key: Option<u8>, rnd: u8) returns (value: u8)
      requires Valid() && LoadDefined(inst) && !inst.AddByte?
      ensures value == LoadedValue(State(), inst, key, rnd)
    {
      if inst.SetRegisterByte? {
        value := inst.kk;
      } else if inst.SetRegister? {
        value := cpu.GetVx(RegOf(inst.y));
      } else if inst.Or? || inst.And? || inst.Xor? {
        value := CombineRegisters(inst);
      } else if inst.SetRandAnd? {
        value := inst.kk & rnd;
      } else if inst.SetToDelayTimer? {
        value := cpu.dt;
      } else {
        var current := cpu.GetVx(RegOf(inst.x));
        value := if key.Some? then key.value else current;
      }
    }

    /** 8xy1, 8xy2 and 8xy3: Vx combined bitwise with Vy. */
    method CombineRegisters(inst: Instruction) returns (value: u8)
      requires Valid() && (inst.Or? || inst.And? || inst.Xor?) && inst.x < 16 && inst.y < 16
      ensures value == LoadedValue(State(), inst, None, 0)
    {
      ghost var s := State();
      var a := cpu.GetVx(RegOf(inst.x));
      var b := cpu.GetVx(RegOf(inst.y));
      assert a == s.v[RegOf(inst.x)] && b == s.v[RegOf(inst.y)];
      if inst.Or? {
        value := a | b;
      } else if inst.And? {
        value := a & b;
      } else {
        value := a ^ b;
      }
    }

    method RunFlagged(inst: Instruction)
      requires Valid() && FlaggedDefined(inst)
      modifies cpu.vx
      ensures Valid() && State() == FlaggedStep(old(State()), inst)
    {
      var x := RegOf(inst.x);
      if inst.Add? {
        cpu.Add(x, RegOf(inst.y));
      } else if inst.Sub? {
        cpu.Sub(x, RegOf(inst.y));
      } else if inst.DivTwo? {
        cpu.ShiftRight(x);
      } else if inst.ReverseSub? {
        cpu.Sub(RegOf(inst.y), x);
      } else {
        cpu.ShiftLeft(x);
      }
      assert ram.ram[..] == old(ram.ram[..]);
    }

    method RunTimer(inst: Instruction)
      requires Valid() && TimerDefined(State(), inst)
      modifies cpu
      ensures Valid() && State() == TimerStep(old(State()), inst)
    {
      if inst.SetI? {
        cpu.SetI(AddrOf(inst.addr));
      } else if inst.SetSpriteI? {
        cpu.SetSpriteI(inst.byte);
      } else if inst.SetDelayTimer? {
        cpu.SetDt(RegOf(inst.x));
      } else if inst.SetSoundTimer? {
        cpu.SetSt(RegOf(inst.x));
      } else {
        var b := cpu.GetVx(RegOf(inst.x));
        cpu.SetI((cpu.i + b as int) % 0x1000);
      }
      assert cpu.vx[..] == old(cpu.vx[..]) && ram.ram[..] == old(ram.ram[..]);
    }

    method RunBlock(inst: Instruction)
      requires Valid() && BlockDefined(State(), inst)
      modifies cpu.vx, ram.ram
      ensures Valid() && State() == BlockStep(old(State()), inst)
    {
      if inst.BCDRepresentation? {
        StoreBcd(RegOf(inst.x));
      } else if inst.CopyRegistersMemory? {
        StoreRegisters(RegOf(inst.x));
      } else {
        LoadRegisters(RegOf(inst.x));
      }
    }

    /** Fx33: the digits of Vx at I, I + 1 and I + 2. */
    method StoreBcd(x: Reg)
      requires Valid() && cpu.i + 2 < Memory.RAM_SIZE
      modifies ram.ram
      ensures Valid() && State() == BcdStep(old(State()), x)
    {
      var currI := cpu.i;
      var value := cpu.GetVx(x);
      var firstDigit := value / 100;
      var secondDigit := (value % 100) / 10;
      var thirdDigit := value % 10;
      ram.WriteByte(currI, firstDigit);
      ram.WriteByte(currI + 1, secondDigit);
      ram.WriteByte(currI + 2, thirdDigit);
      assert cpu.vx[..] == old(cpu.vx[..]);
    }

    /** Fx55: V0..Vx to RAM from I on. */
    method StoreRegisters(x: Reg)
      requires Valid() && cpu.i + x < Memory.RAM_SIZE
      modifies ram.ram
      ensures Valid()
      ensures State() == old(State()).(ram := Stored(old(ram.ram[..]), cpu.vx[..], cpu.i, x + 1))
    {
      var currI := cpu.i;
      var j := 0;
      while j <= x
        invariant 0 <= j <= x + 1
        invariant ram.ram[..] == Stored(old(ram.ram[..]), cpu.vx[..], currI, j)
      {
        var b := cpu.GetVx(j);
        ram.WriteByte(currI + j, b);
        j := j + 1;
      }
    }

    /** Fx65: V0..Vx from RAM from I on. */
    method LoadRegisters(x: Reg)
      requires Valid() && cpu.i + x < Memory.RAM_SIZE
      modifies cpu.vx
      ensures Valid()
      ensures State() == old(State()).(v := Loaded(old(cpu.vx[..]), ram.ram[..], cpu.i, x + 1))
    {
      var currI := cpu.i;
      var j := 0;
      while j <= x
        invariant 0 <= j <= x + 1
        invariant cpu.vx[..] == Loaded(old(cpu.vx[..]), ram.ram[..], currI, j)
      {
        var b := ram.ReadByte(currI + j);
        cpu.SetVx(j, b);
        j := j + 1;
      }
    }

    method RunDisplay(inst: Instruction)
      requires Valid() && DisplayDefined(State(), inst)
      modifies cpu.vx, display
      ensures Valid() && State() == DisplayStep(old(State()), inst)
    {
      if inst.ClearDisplay? {
        display.Clear();
      } else {
        DrawSprite(RegOf(inst.x), RegOf(inst.y), inst.n);
      }
      assert ram.ram[..] == old(ram.ram[..]);
    }

    /** Dxyn: XORs the n-byte sprite at I into the framebuffer at (Vx, Vy)
        and sets VF to whether a lit cell met a set bit. */
    method DrawSprite(x: Reg, y: Reg, n: u8)
      requires Valid() && n < 16 && (n == 0 || cpu.i + n as int <= Memory.RAM_SIZE)
      modifies cpu.vx, display
      ensures Valid()
      ensures var s := old(State());
        var sprite := SpriteAt(s, n);
        var px, py := s.v[x] as int, s.v[y] as int;
        State() == s.(coord := Sprite.DrawFold(s.coord, sprite, px, py, 8 * |sprite|),
                      v := s.v[Cpu.VF := Sprite.Collision(s.coord, sprite, px, py, 8 * |sprite|)])
    {
      var currI := cpu.i;
      var vx := cpu.GetVx(x);
      var vy := cpu.GetVx(y);
      var collision := DrawBytes(currI, n, vx as int, vy as int);
      cpu.SetVx(Cpu.VF, collision);
    }

    /** The row loop of Dxyn: row j is RAM[currI + j], XORed in at
        (px, py + j). */
    method DrawBytes(currI: Addr, n: u8, px: nat, py: nat) returns (collision: u8)
      requires Valid() && n < 16 && (n == 0 || currI + n as int <= Memory.RAM_SIZE)
      modifies display
      ensures Valid()
      ensures var sprite := SpriteBytes(ram.ram[..], currI, n);
        display.coord == Sprite.DrawFold(old(display.coord), sprite, px, py, 8 * |sprite|)
        && collision == Sprite.Collision(old(display.coord), sprite, px, py, 8 * |sprite|)
    {
      ghost var sprite := SpriteBytes(ram.ram[..], currI, n);
      ghost var c0 := display.coord;
      collision := 0;
      var j := 0;
      while j < n as int
        invariant 0 <= j <= n as int && |sprite| == n as int && display.Valid()
        invariant display.coord == Sprite.DrawFold(c0, sprite, px, py, 8 * j)
        invariant collision == Sprite.Collision(c0, sprite, px, py, 8 * j)
      {
        var byte := ram.ReadByte(currI + j);
        collision := display.DrawRow(c0, sprite, px, py, j, byte, collision);
        j := j + 1;
      }
    }
  }
}
