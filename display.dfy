/** The part of the window wrapper (src/display.rs) the interpreter core
    works on: `coord`, one byte per cell of the 64x32 framebuffer. */
module Display {
  import opened Types
  import Sprite

  /** The all-off framebuffer. */
  function Blank(): (c: seq<u8>)
    ensures |c| == Sprite.PIXELS
    ensures forall p :: 0 <= p < Sprite.PIXELS ==> c[p] == 0
  {
    seq(Sprite.PIXELS, _ => 0)
  }

  class Display {
    /** The framebuffer, row-major: cell 64 * row + column. */
    var coord: seq<u8>

    ghost predicate Valid()
      reads this
    {
      |coord| == Sprite.PIXELS
    }

    /** Every cell off. */
    constructor ()
      ensures Valid() && coord == Blank()
    {
      coord := Blank();
    }

    /** Turns every cell off. */
    method Clear()
      modifies this`coord
      ensures Valid() && coord == Blank()
    {
      coord := Blank();
    }

    /** Row j of Dxyn (src/chip8.rs:153-160): the eight bits of `byte`,
        most significant first, XORed into the cells from (px, py + j) on,
        wrapping modulo 2048; the flag rises to 1 when a set bit meets a lit
        cell. `c0` and `sprite` name the framebuffer before the draw and the
        sprite, of which `byte` is row j. */
    method DrawRow(ghost c0: seq<u8>, ghost sprite: seq<u8>, px: nat, py: nat, j: nat, byte: u8, flag: u8)
        returns (collision: u8)
      requires |c0| == Sprite.PIXELS && j < |sprite| && byte == sprite[j]
      requires coord == Sprite.DrawFold(c0, sprite, px, py, 8 * j)
      requires flag == Sprite.Collision(c0, sprite, px, py, 8 * j)
      modifies this`coord
      ensures coord == Sprite.DrawFold(c0, sprite, px, py, 8 * (j + 1))
      ensures collision == Sprite.Collision(c0, sprite, px, py, 8 * (j + 1))
    {
      collision := flag;
      var k := 0;
      while k < 8
        invariant 0 <= k <= 8
        invariant coord == Sprite.DrawFold(c0, sprite, px, py, 8 * j + k)
        invariant collision == Sprite.Collision(c0, sprite, px, py, 8 * j + k)
      {
        var idx := (64 * (py + j) + px + k) % 2048;
        var bit := Sprite.ColumnBit(byte, k);
        Sprite.DrawFoldStep(c0, sprite, px, py, j, k);
        Sprite.CollisionStep(c0, sprite, px, py, j, k);
        if coord[idx] == 1 && bit == 1 {
          collision := 1;
        }
        coord := coord[idx := coord[idx] ^ bit];
        k := k + 1;
      }
      assert 8 * j + k == 8 * (j + 1);
    }
  }
}
