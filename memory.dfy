/** The 4 KiB RAM (src/memory.rs): a byte array written in place, with the
    sixteen hexadecimal digit glyphs loaded at its bottom when created. */
module Memory {
  import opened Types

  /** Size of the RAM in bytes; valid addresses are 0 to 0xFFF. */
  const RAM_SIZE: nat := 0x1000

  /** Number of bytes the glyphs occupy, from address 0: sixteen glyphs of
      five bytes. */
  const FONT_BYTES: nat := 80

  /** The digit glyphs 0 to F, five rows of four pixels each (the high
      nibble of every row). */
  const FONT_SPRITES: seq<seq<u8>> := [
    [0xF0, 0x90, 0x90, 0x90, 0xF0], // 0
    [0x20, 0x60, 0x20, 0x20, 0x70], // 1
    [0xF0, 0x10, 0xF0, 0x80, 0xF0], // 2
    [0xF0, 0x10, 0xF0, 0x10, 0xF0], // 3
    [0x90, 0x90, 0xF0, 0x10, 0x10], // 4
    [0xF0, 0x80, 0xF0, 0x10, 0xF0], // 5
    [0xF0, 0x80, 0xF0, 0x90, 0xF0], // 6
    [0xF0, 0x10, 0x20, 0x40, 0x40], // 7
    [0xF0, 0x90, 0xF0, 0x90, 0xF0], // 8
    [0xF0, 0x90, 0xF0, 0x10, 0xF0], // 9
    [0xF0, 0x90, 0xF0, 0x90, 0x90], // A
    [0xE0, 0x90, 0xE0, 0x90, 0xE0], // B
    [0xF0, 0x80, 0x80, 0x80, 0xF0], // C
    [0xE0, 0x90, 0x90, 0x90, 0xE0], // D
    [0xF0, 0x80, 0xF0, 0x80, 0xF0], // E
    [0xF0, 0x80, 0xF0, 0x80, 0x80]  // F
  ]

  /** The byte the font puts at address a < 80: row a % 5 of glyph a / 5. */
  function FontByte(a: nat): u8
    requires a < FONT_BYTES
  {
    FontRows();
    FONT_SPRITES[a / 5][a % 5]
  }

  /** Sixteen glyphs of five rows each. */
  lemma FontRows()
    ensures |FONT_SPRITES| == 16 && forall d :: 0 <= d < 16 ==> |FONT_SPRITES[d]| == 5
  {
  }

  /** A RAM image with the font written over its first 80 bytes. */
  function WithFont(m: seq<u8>): (r: seq<u8>)
    requires |m| == RAM_SIZE
    ensures |r| == RAM_SIZE
    ensures forall a :: FONT_BYTES <= a < RAM_SIZE ==> r[a] == m[a]
  {
    seq(RAM_SIZE, a requires 0 <= a < RAM_SIZE => if a < FONT_BYTES then FontByte(a) else m[a])
  }

  /** The RAM of a fresh interpreter: the font, then zeros. */
  function InitialRam(): (r: seq<u8>)
    ensures |r| == RAM_SIZE
  {
    WithFont(seq(RAM_SIZE, _ => 0))
  }

  /** Glyph d starts at address 5 * d and holds its five rows in order. */
  lemma InitialRamGlyphs(d: nat, row: nat)
    requires d < 16 && row < 5
    ensures InitialRam()[5 * d + row] == FONT_SPRITES[d][row]
  {
    var a := 5 * d + row;
    assert a / 5 == d && a % 5 == row;
    assert InitialRam()[a] == FontByte(a);
  }

  /** Everything from address 80 up starts out zero. */
  lemma InitialRamZeroAbove(a: nat)
    requires FONT_BYTES <= a < RAM_SIZE
    ensures InitialRam()[a] == 0
  {
  }

  class Memory {
    const ram: array<u8>

    ghost predicate Valid()
      reads this
    {
      ram.Length == RAM_SIZE
    }

    /** Zeroed RAM with the font loaded. */
    constructor ()
      ensures Valid() && fresh(ram)
      ensures ram[..] == InitialRam()
    {
      ram := new u8[RAM_SIZE](_ => 0);
      new;
      LoadFontSprites();
    }

    /** Writes the 16 glyphs, five bytes each, at consecutive addresses
        from 0; every other byte is left alone. */
    method LoadFontSprites()
      requires Valid()
      modifies ram
      ensures ram[..] == WithFont(old(ram[..]))
    {
      FontRows();
      var i: nat := 0;
      var d := 0;
      while d < 16
        invariant 0 <= d <= 16 && i == 5 * d
        invariant forall a :: 0 <= a < i ==> ram[a] == FontByte(a)
        invariant forall a :: i <= a < RAM_SIZE ==> ram[a] == old(ram[a])
      {
        var sprite := FONT_SPRITES[d];
        var r := 0;
        while r < 5
          invariant 0 <= r <= 5 && i == 5 * d + r
          invariant forall a :: 0 <= a < i ==> ram[a] == FontByte(a)
          invariant forall a :: i <= a < RAM_SIZE ==> ram[a] == old(ram[a])
        {
          assert i / 5 == d && i % 5 == r;
          WriteByte(i, sprite[r]);
          i := i + 1;
          r := r + 1;
        }
        d := d + 1;
      }
    }

    /** Stores a byte at an address below 0x1000; nothing else changes. */
    method WriteByte(index: nat, b: u8)
      requires Valid() && index < RAM_SIZE
      modifies ram
      ensures ram[..] == old(ram[..])[index := b]
    {
      ram[index] := b;
    }

    /** Reads the byte at an address below 0x1000. */
    method ReadByte(index: nat) returns (b: u8)
      requires Valid() && index < RAM_SIZE
      ensures b == ram[index]
    {
      b := ram[index];
    }
  }

}
