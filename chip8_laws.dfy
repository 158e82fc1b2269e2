/** What one interpreter step (src/chip8.rs:93-224) guarantees, stated on
    the pure model Chip8.Exec / Chip8.Step that the methods of class
    Chip8.Chip8 are proved against. */
module Chip8Laws {
  import opened Types
  import opened Instructions
  import opened Chip8
  import Cpu
  import Memory
  import Sprite
  import Display

  // Program counter.

  /** Every instruction other than the control transfers ends with PC += 2;
      a skip whose condition holds adds another 2. Fx0A without a key has
      not finished yet and leaves PC where it was. */
  lemma PcAdvance(s: MachineState, inst: Instruction, key: Option<u8>, rnd: u8)
    requires ExecDefined(s, inst, key, rnd) && !IsControl(inst)
    ensures var r := Exec(s, inst, key, rnd);
      r.pc == if Waiting(inst, key) then s.pc
              else if IsSkip(inst) && SkipTaken(s, inst, key) then s.pc + 4
              else s.pc + 2
  {
    if !Waiting(inst, key) && !IsSkip(inst) {
      DispatchKeepsPc(s, inst, key, rnd);
    }
  }

  /** The arms other than control transfers and skips do not touch PC. */
  lemma DispatchKeepsPc(s: MachineState, inst: Instruction, key: Option<u8>, rnd: u8)
    requires DispatchDefined(s, inst) && !IsControl(inst) && !IsSkip(inst)
    ensures Dispatch(s, inst, key, rnd).pc == s.pc
  {
    if IsBlock(inst) && inst.BCDRepresentation? {
      assert BlockStep(s, inst) == BcdStep(s, RegOf(inst.x));
    }
  }

  /** 1nnn lands on nnn: the jump stores nnn - 2 and the PC += 2 after
      every instruction makes up the difference. */
  lemma JumpLands(s: MachineState, a: u16, key: Option<u8>, rnd: u8)
    requires ExecDefined(s, Jump(a), key, rnd)
    ensures Exec(s, Jump(a), key, rnd) == s.(pc := a as int)
  {
  }

  /** Bnnn lands on nnn + V0. */
  lemma JumpPlusV0Lands(s: MachineState, a: u16, key: Option<u8>, rnd: u8)
    requires ExecDefined(s, JumpPlusV0(a), key, rnd)
    ensures Exec(s, JumpPlusV0(a), key, rnd) == s.(pc := a as int + s.v[0] as int)
  {
  }

  /** 2nnn followed by 00EE: the call lands on nnn with the caller's PC in
      the next stack slot, and the return resumes at the instruction after
      the call with the stack pointer restored. Only the slot written by
      the call keeps its new value. */
  lemma CallThenReturn(s: MachineState, a: u16, key: Option<u8>, rnd: u8)
    requires ExecDefined(s, Call(a), key, rnd) && s.pc + 2 < 0x1_0000
    ensures var called := Exec(s, Call(a), key, rnd);
      called.pc == a as int && called.sp == s.sp + 1 && called.stack[called.sp] == s.pc
      && ExecDefined(called, Return, key, rnd)
      && Exec(called, Return, key, rnd) == s.(stack := s.stack[s.sp + 1 := s.pc], pc := s.pc + 2)
  {
    var called := Exec(s, Call(a), key, rnd);
    assert Dispatch(called, Return, key, rnd).pc == s.pc;
  }

  // Fetch and decode.

  /** A word that does not decode changes nothing, not even PC: the
      interpreter fetches the same word again on the next cycle. */
  lemma DecodeMissStalls(s: MachineState, key: Option<u8>, rnd: u8)
    requires StepDefined(s, key, rnd) && Decode(Opcode(s.ram, s.pc)).None?
    ensures Step(s, key, rnd) == s
  {
  }

  // Key wait.

  /** Fx0A: without a key nothing changes, so the instruction runs again;
      with key k, Vx := k and PC += 2. */
  lemma KeyWait(s: MachineState, x: u8, key: Option<u8>, rnd: u8)
    requires ExecDefined(s, GetKeyPress(x), key, rnd)
    ensures var r := Exec(s, GetKeyPress(x), key, rnd);
      if key.None? then r == s else r == s.(v := s.v[x as int := key.value], pc := s.pc + 2)
  {
  }

  // The framebuffer.

  /** Every cell is 0 or 1. */
  predicate Binary(coord: seq<u8>)
  {
    forall p :: 0 <= p < |coord| ==> coord[p] == 0 || coord[p] == 1
  }

  /** A fresh interpreter's framebuffer is binary. */
  lemma InitialBinary()
    ensures Binary(Initial().coord)
  {
  }

  /** Every instruction keeps the framebuffer binary: 00E0 blanks it, Dxyn
      XORs bits into it, and nothing else touches it. */
  lemma ExecKeepsBinary(s: MachineState, inst: Instruction, key: Option<u8>, rnd: u8)
    requires ExecDefined(s, inst, key, rnd) && Binary(s.coord)
    ensures Binary(Exec(s, inst, key, rnd).coord)
  {
    if Waiting(inst, key) {
    } else if inst.Draw? {
      DrawKeepsBinary(s, inst.x, inst.y, inst.n, key, rnd);
    } else if inst.ClearDisplay? {
    } else {
      DispatchKeepsCoord(s, inst, key, rnd);
    }
  }

  /** Dxyn keeps the framebuffer binary. */
  lemma DrawKeepsBinary(s: MachineState, x: u8, y: u8, n: u8, key: Option<u8>, rnd: u8)
    requires ExecDefined(s, Draw(x, y, n), key, rnd) && Binary(s.coord)
    ensures Binary(Exec(s, Draw(x, y, n), key, rnd).coord)
  {
    DrawOperands(s, x, y, n, key, rnd);
    ExecDraw(s, x, y, n, key, rnd);
    Sprite.DrawKeepsBinary(s.coord, SpriteAt(s, n), s.v[x] as int, s.v[y] as int, 8 * n as int);
  }

  /** Only 00E0 and Dxyn touch the framebuffer. */
  lemma DispatchKeepsCoord(s: MachineState, inst: Instruction, key: Option<u8>, rnd: u8)
    requires DispatchDefined(s, inst) && !inst.Draw? && !inst.ClearDisplay?
    ensures Dispatch(s, inst, key, rnd).coord == s.coord
  {
    if IsBlock(inst) && inst.BCDRepresentation? {
      assert BlockStep(s, inst) == BcdStep(s, RegOf(inst.x));
    }
  }

  /** A fetch-and-run step keeps the framebuffer binary. */
  lemma StepKeepsBinary(s: MachineState, key: Option<u8>, rnd: u8)
    requires StepDefined(s, key, rnd) && Binary(s.coord)
    ensures Binary(Step(s, key, rnd).coord)
  {
    var next := Decode(Opcode(s.ram, s.pc));
    if next.Some? {
      ExecKeepsBinary(s, next.value, key, rnd);
    }
  }

  /** Dxyn as one step: the framebuffer becomes the XOR fold of the
      sprite at (Vx, Vy), VF the collision flag, then PC += 2. */
  lemma ExecDraw(s: MachineState, x: u8, y: u8, n: u8, key: Option<u8>, rnd: u8)
    requires ExecDefined(s, Draw(x, y, n), key, rnd)
    ensures var sprite := SpriteAt(s, n);
      var px, py := s.v[x] as int, s.v[y] as int;
      Exec(s, Draw(x, y, n), key, rnd)
        == s.(coord := Sprite.DrawFold(s.coord, sprite, px, py, 8 * n as int),
              v := s.v[Cpu.VF := Sprite.Collision(s.coord, sprite, px, py, 8 * n as int)],
              pc := s.pc + 2)
  {
  }

  /** What Dxyn needs: register operands and a sprite inside the RAM. */
  lemma DrawOperands(s: MachineState, x: u8, y: u8, n: u8, key: Option<u8>, rnd: u8)
    requires ExecDefined(s, Draw(x, y, n), key, rnd)
    ensures WellShaped(s) && x < 16 && y < 16 && n < 16 && (n == 0 || s.i + n as int <= Memory.RAM_SIZE)
  {
  }

  /** Dxyn XORs column k of sprite row j, the byte at I + j, into the cell
      (64 * (Vy + j) + Vx + k) % 2048, bit 7 - k of the byte first. */
  lemma DrawPixel(s: MachineState, x: u8, y: u8, n: u8, key: Option<u8>, rnd: u8, j: nat, k: nat)
    requires ExecDefined(s, Draw(x, y, n), key, rnd) && j < n as int && k < 8
    ensures var r := Exec(s, Draw(x, y, n), key, rnd);
      var p := (64 * (s.v[y] as int + j) + s.v[x] as int + k) % 2048;
      r.coord[p] == s.coord[p] ^ Sprite.ColumnBit(s.ram[s.i + j], k)
  {
    DrawOperands(s, x, y, n, key, rnd);
    var sprite := SpriteAt(s, n);
    ExecDraw(s, x, y, n, key, rnd);
    assert sprite[j] == s.ram[s.i + j];
    Sprite.DrawnCell(s.coord, sprite, s.v[x] as int, s.v[y] as int, j, k);
  }

  /** Dxyn sets VF to 1 exactly when some set sprite bit landed on a cell
      that was lit before the draw, and to 0 otherwise. */
  lemma DrawFlag(s: MachineState, x: u8, y: u8, n: u8, key: Option<u8>, rnd: u8)
    requires ExecDefined(s, Draw(x, y, n), key, rnd)
    ensures var r := Exec(s, Draw(x, y, n), key, rnd);
      var sprite := SpriteAt(s, n);
      var px, py := s.v[x] as int, s.v[y] as int;
      (r.v[Cpu.VF] == 0 || r.v[Cpu.VF] == 1)
      && (r.v[Cpu.VF] == 1 <==> exists t :: 0 <= t < 8 * |sprite| && Sprite.LitMeetsBit(s.coord, sprite, px, py, t))
  {
    DrawOperands(s, x, y, n, key, rnd);
    var sprite := SpriteAt(s, n);
    ExecDraw(s, x, y, n, key, rnd);
    Sprite.CollisionIff(s.coord, sprite, s.v[x] as int, s.v[y] as int, 8 * |sprite|);
  }

  /** Running the same Dxyn twice restores the framebuffer, provided
      neither coordinate register is VF (the first draw overwrites VF, so
      the second would draw elsewhere). */
  lemma DrawTwiceRestores(s: MachineState, x: u8, y: u8, n: u8, key: Option<u8>, rnd: u8)
    requires ExecDefined(s, Draw(x, y, n), key, rnd) && x != 0xF && y != 0xF && s.pc + 4 < 0x1_0000
    ensures var once := Exec(s, Draw(x, y, n), key, rnd);
      ExecDefined(once, Draw(x, y, n), key, rnd)
      && Exec(once, Draw(x, y, n), key, rnd).coord == s.coord
  {
    var once := Exec(s, Draw(x, y, n), key, rnd);
    ExecDraw(s, x, y, n, key, rnd);
    DrawOperands(s, x, y, n, key, rnd);
    DrawDefinedAt(once, x, y, n, key, rnd);
    ExecDraw(once, x, y, n, key, rnd);
    RedrawAt(s, once, x as int, y as int, n);
  }

  /** Dxyn can run whenever its registers exist, its n sprite bytes lie
      inside the RAM and PC + 2 fits in 16 bits. */
  lemma DrawDefinedAt(s: MachineState, x: u8, y: u8, n: u8, key: Option<u8>, rnd: u8)
    requires WellShaped(s) && x < 16 && y < 16 && n < 16
    requires (n == 0 || s.i + n as int <= Memory.RAM_SIZE) && s.pc + 2 < 0x1_0000
    ensures ExecDefined(s, Draw(x, y, n), key, rnd)
  {
  }

  /** The framebuffer arithmetic behind DrawTwiceRestores: a state that
      shares the RAM, I, Vx and Vy of `s` and holds the sprite of `s`
      drawn once gets `s`'s framebuffer back from a second draw. */
  lemma RedrawAt(s: MachineState, once: MachineState, x: Reg, y: Reg, n: u8)
    requires WellShaped(s) && WellShaped(once) && n < 16 && (n == 0 || s.i + n as int <= Memory.RAM_SIZE)
    requires once.ram == s.ram && once.i == s.i && once.v[x] == s.v[x] && once.v[y] == s.v[y]
    requires once.coord == Sprite.DrawFold(s.coord, SpriteAt(s, n), s.v[x] as int, s.v[y] as int, 8 * n as int)
    ensures Sprite.DrawFold(once.coord, SpriteAt(once, n), once.v[x] as int, once.v[y] as int, 8 * n as int) == s.coord
  {
    Sprite.DrawTwice(s.coord, SpriteAt(s, n), s.v[x] as int, s.v[y] as int);
  }

  // I and the RAM.

  /** Fx33 as one step: the three digits of Vx at I, I + 1, I + 2, then
      PC += 2. */
  lemma ExecBcd(s: MachineState, x: u8, key: Option<u8>, rnd: u8)
    requires ExecDefined(s, BCDRepresentation(x), key, rnd)
    ensures var d := BcdDigits(s.v[x]);
      Exec(s, BCDRepresentation(x), key, rnd)
        == s.(ram := s.ram[s.i := d.0][s.i + 1 := d.1][s.i + 2 := d.2], pc := s.pc + 2)
  {
    assert BlockStep(s, BCDRepresentation(x)) == BcdStep(s, x as int);
  }

  /** Fx33 writes the hundreds, tens and units of Vx at I, I + 1 and
      I + 2; the registers, I and every other byte of RAM are unchanged. */
  lemma BcdStores(s: MachineState, x: u8, key: Option<u8>, rnd: u8)
    requires ExecDefined(s, BCDRepresentation(x), key, rnd)
    ensures var r := Exec(s, BCDRepresentation(x), key, rnd);
      var d := BcdDigits(s.v[x]);
      r.ram[s.i] == d.0 && r.ram[s.i + 1] == d.1 && r.ram[s.i + 2] == d.2
      && r.v == s.v && r.i == s.i
      && forall a :: 0 <= a < Memory.RAM_SIZE && !(s.i <= a <= s.i + 2) ==> r.ram[a] == s.ram[a]
  {
    ExecBcd(s, x, key, rnd);
  }

  /** Fx55: V0..Vx land at I..I + x; the registers, I and every other byte
      of RAM are unchanged. */
  lemma StoreRegistersWrites(s: MachineState, x: u8, key: Option<u8>, rnd: u8)
    requires ExecDefined(s, CopyRegistersMemory(x), key, rnd)
    ensures var r := Exec(s, CopyRegistersMemory(x), key, rnd);
      (forall k :: 0 <= k <= x as int ==> r.ram[s.i + k] == s.v[k])
      && (forall a :: 0 <= a < Memory.RAM_SIZE && !(s.i <= a <= s.i + x as int) ==> r.ram[a] == s.ram[a])
      && r.v == s.v && r.i == s.i
  {
    ExecStore(s, x, key, rnd);
  }

  /** Fx65: V0..Vx are read from I..I + x; the registers above x, I and
      the RAM are unchanged. */
  lemma LoadRegistersReads(s: MachineState, x: u8, key: Option<u8>, rnd: u8)
    requires ExecDefined(s, SetRegistersMemory(x), key, rnd)
    ensures var r := Exec(s, SetRegistersMemory(x), key, rnd);
      (forall k :: 0 <= k <= x as int ==> r.v[k] == s.ram[s.i + k])
      && (forall k :: x as int < k < 16 ==> r.v[k] == s.v[k])
      && r.ram == s.ram && r.i == s.i
  {
    ExecLoad(s, x, key, rnd);
  }

  /** Fx55 then Fx65 with the same x reads back exactly what was stored:
      after both, only the RAM written by Fx55 and PC have changed. */
  lemma StoreThenLoad(s: MachineState, x: u8, key: Option<u8>, rnd: u8)
    requires ExecDefined(s, CopyRegistersMemory(x), key, rnd) && s.pc + 4 < 0x1_0000
    ensures var stored := Exec(s, CopyRegistersMemory(x), key, rnd);
      ExecDefined(stored, SetRegistersMemory(x), key, rnd)
      && Exec(stored, SetRegistersMemory(x), key, rnd) == stored.(pc := s.pc + 4)
  {
    var c := x as int + 1;
    var stored := Exec(s, CopyRegistersMemory(x), key, rnd);
    StoreOperands(s, x, key, rnd);
    ExecStore(s, x, key, rnd);
    LoadStored(s.v, s.ram, s.i, c);
    LoadDefinedAt(stored, x, key, rnd);
    ExecLoad(stored, x, key, rnd);
  }

  /** What Fx55 needs: a register operand and room in the RAM for
      V0..Vx from I on. */
  lemma StoreOperands(s: MachineState, x: u8, key: Option<u8>, rnd: u8)
    requires ExecDefined(s, CopyRegistersMemory(x), key, rnd)
    ensures WellShaped(s) && x < 16 && s.i + x as int < Memory.RAM_SIZE
  {
  }

  /** Fx55 as one step: the RAM from I on gets V0..Vx, then PC += 2. */
  lemma ExecStore(s: MachineState, x: u8, key: Option<u8>, rnd: u8)
    requires ExecDefined(s, CopyRegistersMemory(x), key, rnd)
    ensures Exec(s, CopyRegistersMemory(x), key, rnd)
      == s.(ram := Stored(s.ram, s.v, s.i, x as int + 1), pc := s.pc + 2)
  {
  }

  /** Fx65 as one step: V0..Vx from the RAM from I on, then PC += 2. */
  lemma ExecLoad(s: MachineState, x: u8, key: Option<u8>, rnd: u8)
    requires ExecDefined(s, SetRegistersMemory(x), key, rnd)
    ensures Exec(s, SetRegistersMemory(x), key, rnd)
      == s.(v := Loaded(s.v, s.ram, s.i, x as int + 1), pc := s.pc + 2)
  {
  }

  /** Fx65 can run whenever x names a register, I + x is inside the RAM
      and PC + 2 fits in 16 bits. */
  lemma LoadDefinedAt(s: MachineState, x: u8, key: Option<u8>, rnd: u8)
    requires WellShaped(s) && x < 16 && s.i + x as int < Memory.RAM_SIZE && s.pc + 2 < 0x1_0000
    ensures ExecDefined(s, SetRegistersMemory(x), key, rnd)
  {
  }

  /** Reading back the registers just stored gives the registers. */
  lemma LoadStored(v: seq<u8>, ram: seq<u8>, i: nat, count: nat)
    requires |v| == 16 && count <= 16 && i + count <= |ram|
    ensures Loaded(v, Stored(ram, v, i, count), i, count) == v
  {
    var stored := Stored(ram, v, i, count);
    forall k | 0 <= k < 16
      ensures Loaded(v, stored, i, count)[k] == v[k]
    {
      if k < count {
        assert stored[i + k] == v[..count][k];
      }
    }
  }

  /** I stays inside the RAM: Annn takes a 12-bit address, Fx29 at most
      5 * 51, and Fx1E wraps modulo 0x1000. */
  lemma ExecKeepsIInRam(s: MachineState, inst: Instruction, key: Option<u8>, rnd: u8)
    requires ExecDefined(s, inst, key, rnd) && s.i < Memory.RAM_SIZE
    ensures Exec(s, inst, key, rnd).i < Memory.RAM_SIZE
  {
    if !Waiting(inst, key) && !IsTimerOrI(inst) {
      DispatchKeepsI(s, inst, key, rnd);
    }
  }

  /** Only Annn, Fx1E and Fx29 write I. */
  lemma DispatchKeepsI(s: MachineState, inst: Instruction, key: Option<u8>, rnd: u8)
    requires DispatchDefined(s, inst) && !IsTimerOrI(inst)
    ensures Dispatch(s, inst, key, rnd).i == s.i
  {
    if IsBlock(inst) && inst.BCDRepresentation? {
      assert BlockStep(s, inst) == BcdStep(s, RegOf(inst.x));
    }
  }
}
