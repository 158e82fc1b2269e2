/** The sprite blit of `Dxyn` (src/chip8.rs:148-166) as a pure function on
    the 64x32 framebuffer: the n sprite bytes are scanned row by row and bit
    by bit, most significant bit first, and each bit is XORed into the cell
    at (Vx + k, Vy + j), the cell index wrapping modulo 2048. */
module Sprite {
  import opened Types

  const WIDTH: nat := 64
  const HEIGHT: nat := 32
  /** Number of cells in the framebuffer. */
  const PIXELS: nat := 2048

  /** The longest sprite an instruction can name: n is one nibble. */
  const MAX_ROWS: nat := 15

  /** The cell hit by scan position t (row t / 8, column t % 8) of a sprite
      drawn at (x, y), one row of 8 positions at a time. */
  function Target(x: nat, y: nat, t: nat): (p: nat)
    ensures p < PIXELS
    decreases t
  {
    if t < 8 then (64 * y + x + t) % 2048 else Target(x, y + 1, t - 8)
  }

  /** Bit t % 8 of sprite row row + t / 8, counted from the most
      significant bit. */
  function RowBit(sprite: seq<u8>, row: nat, t: nat): (b: u8)
    requires row + t / 8 < |sprite|
    ensures b == 0 || b == 1
    decreases t
  {
    if t < 8 then ColumnBit(sprite[row], t) else RowBit(sprite, row + 1, t - 8)
  }

  /** Bit t % 8 of sprite row t / 8. */
  function Bit(sprite: seq<u8>, t: nat): (b: u8)
    requires t < 8 * |sprite|
    ensures b == 0 || b == 1
  {
    RowBit(sprite, 0, t)
  }

  /** `(byte >> (7 - k)) & 1`, with the shift for each column k written out. */
  function ColumnBit(byte: u8, k: nat): (b: u8)
    requires k < 8
    ensures b == 0 || b == 1
  {
    match k
    case 0 => (byte >> 7) & 0x01
    case 1 => (byte >> 6) & 0x01
    case 2 => (byte >> 5) & 0x01
    case 3 => (byte >> 4) & 0x01
    case 4 => (byte >> 3) & 0x01
    case 5 => (byte >> 2) & 0x01
    case 6 => (byte >> 1) & 0x01
    case _ => byte & 0x01
  }

  /** Scan position 8 * j + k is column k of row j: its cell is
      (64 * (y + j) + x + k) % 2048 and its bit is bit k of row j. */
  lemma ScanPosition(sprite: seq<u8>, x: nat, y: nat, j: nat, k: nat)
    requires j < |sprite| && k < 8
    ensures Target(x, y, 8 * j + k) == (64 * (y + j) + x + k) % 2048
    ensures Bit(sprite, 8 * j + k) == ColumnBit(sprite[j], k)
  {
    TargetRows(x, y, j, k);
    RowBitRows(sprite, 0, j, k);
  }

  /** Column k of sprite row j lands on cell (64 * (y + j) + x + k) % 2048. */
  lemma {:induction false} TargetRows(x: nat, y: nat, j: nat, k: nat)
    requires k < 8
    ensures Target(x, y, 8 * j + k) == (64 * (y + j) + x + k) % 2048
    decreases j
  {
    if j > 0 {
      TargetRows(x, y + 1, j - 1, k);
      assert 8 * j + k - 8 == 8 * (j - 1) + k;
    }
  }

  /** Scan position 8 * j + k, counted from row `row`, reads bit k of row
      row + j. */
  lemma {:induction false} RowBitRows(sprite: seq<u8>, row: nat, j: nat, k: nat)
    requires row + j < |sprite| && k < 8
    ensures (8 * j + k) / 8 == j
    ensures RowBit(sprite, row, 8 * j + k) == ColumnBit(sprite[row + j], k)
    decreases j
  {
    if j > 0 {
      RowBitRows(sprite, row + 1, j - 1, k);
      assert 8 * j + k - 8 == 8 * (j - 1) + k;
    }
  }

  /** The framebuffer after the first t scan positions have been XORed in. */
  function DrawFold(c: seq<u8>, sprite: seq<u8>, x: nat, y: nat, t: nat): (d: seq<u8>)
    requires |c| == PIXELS && t <= 8 * |sprite|
    ensures |d| == PIXELS
  {
    if t == 0 then c
    else
      var d := DrawFold(c, sprite, x, y, t - 1);
      var p := Target(x, y, t - 1);
      d[p := d[p] ^ Bit(sprite, t - 1)]
  }

  /** The collision flag after the first t scan positions: 1 once a set
      sprite bit has met a cell holding 1, 0 until then. */
  function Collision(c: seq<u8>, sprite: seq<u8>, x: nat, y: nat, t: nat): (f: u8)
    requires |c| == PIXELS && t <= 8 * |sprite|
    ensures f == 0 || f == 1
  {
    if t == 0 then 0
    else if DrawFold(c, sprite, x, y, t - 1)[Target(x, y, t - 1)] == 1 && Bit(sprite, t - 1) == 1 then 1
    else Collision(c, sprite, x, y, t - 1)
  }

  /** Scan position 8 * j + k of the flat fold: the cell of column k of
      row j is XORed with bit k of row j. */
  lemma DrawFoldStep(c: seq<u8>, sprite: seq<u8>, x: nat, y: nat, j: nat, k: nat)
    requires |c| == PIXELS && j < |sprite| && k < 8
    ensures var d := DrawFold(c, sprite, x, y, 8 * j + k);
      var p := (64 * (y + j) + x + k) % 2048;
      DrawFold(c, sprite, x, y, 8 * j + (k + 1)) == d[p := d[p] ^ ColumnBit(sprite[j], k)]
  {
    ScanPosition(sprite, x, y, j, k);
  }

  /** Scan position 8 * j + k of the flag. */
  lemma CollisionStep(c: seq<u8>, sprite: seq<u8>, x: nat, y: nat, j: nat, k: nat)
    requires |c| == PIXELS && j < |sprite| && k < 8
    ensures var d := DrawFold(c, sprite, x, y, 8 * j + k);
      var p := (64 * (y + j) + x + k) % 2048;
      Collision(c, sprite, x, y, 8 * j + (k + 1))
        == if d[p] == 1 && ColumnBit(sprite[j], k) == 1 then 1 else Collision(c, sprite, x, y, 8 * j + k)
  {
    ScanPosition(sprite, x, y, j, k);
  }

  /** The last of the first t scan positions that hits cell p, or -1 when
      none does. */
  function LastHit(x: nat, y: nat, t: nat, p: nat): (h: int)
    ensures -1 <= h < t
    ensures h >= 0 ==> Target(x, y, h) == p
    ensures h == -1 ==> forall s :: 0 <= s < t ==> Target(x, y, s) != p
  {
    if t == 0 then -1
    else if Target(x, y, t - 1) == p then t - 1
    else LastHit(x, y, t - 1, p)
  }

  /** Two integers less than 2048 apart, and not equal, fall into different
      cells modulo 2048. */
  lemma ModDistinct(a: int, b: int)
    requires 0 <= a < b < a + PIXELS
    ensures a % PIXELS != b % PIXELS
  {
  }

  /** The scan positions of one sprite (at most 15 rows) hit pairwise
      distinct cells: rows are 64 cells apart, at most 15 * 64 + 7 < 2048,
      and the 8 columns of a row are adjacent. */
  lemma TargetsDistinct(x: nat, y: nat, s1: nat, s2: nat)
    requires s1 < s2 < 8 * MAX_ROWS
    ensures Target(x, y, s1) != Target(x, y, s2)
  {
    TargetRows(x, y, s1 / 8, s1 % 8);
    TargetRows(x, y, s2 / 8, s2 % 8);
    ModDistinct(64 * (y + s1 / 8) + x + s1 % 8, 64 * (y + s2 / 8) + x + s2 % 8);
  }

  /** Closed form of the fold: each cell is XORed with the one sprite bit
      that hits it, if any. */
  lemma {:induction false} DrawFoldAt(c: seq<u8>, sprite: seq<u8>, x: nat, y: nat, t: nat, p: nat)
    requires |c| == PIXELS && |sprite| <= MAX_ROWS && t <= 8 * |sprite| && p < PIXELS
    ensures var h := LastHit(x, y, t, p);
      DrawFold(c, sprite, x, y, t)[p] == if h >= 0 then c[p] ^ Bit(sprite, h) else c[p]
  {
    if t > 0 {
      DrawFoldAt(c, sprite, x, y, t - 1, p);
      if Target(x, y, t - 1) == p {
        forall s | 0 <= s < t - 1
          ensures Target(x, y, s) != p
        {
          TargetsDistinct(x, y, s, t - 1);
        }
      }
    }
  }

  /** After the whole sprite is drawn, the cell of column k of row j holds
      its old value XORed with bit k of row j. */
  lemma DrawnCell(c: seq<u8>, sprite: seq<u8>, x: nat, y: nat, j: nat, k: nat)
    requires |c| == PIXELS && |sprite| <= MAX_ROWS && j < |sprite| && k < 8
    ensures var p := (64 * (y + j) + x + k) % 2048;
      DrawFold(c, sprite, x, y, 8 * |sprite|)[p] == c[p] ^ ColumnBit(sprite[j], k)
  {
    var t := 8 * j + k;
    ScanPosition(sprite, x, y, j, k);
    var p := Target(x, y, t);
    DrawFoldAt(c, sprite, x, y, 8 * |sprite|, p);
    var h := LastHit(x, y, 8 * |sprite|, p);
    if h < t {
      TargetsDistinct(x, y, h, t);
    } else if h > t {
      TargetsDistinct(x, y, t, h);
    }
  }

  /** Before scan position t is drawn, its cell still holds its original
      value: no earlier position hit it. */
  lemma UntouchedBeforeDrawn(c: seq<u8>, sprite: seq<u8>, x: nat, y: nat, t: nat)
    requires |c| == PIXELS && |sprite| <= MAX_ROWS && t < 8 * |sprite|
    ensures DrawFold(c, sprite, x, y, t)[Target(x, y, t)] == c[Target(x, y, t)]
  {
    DrawFoldAt(c, sprite, x, y, t, Target(x, y, t));
    var h := LastHit(x, y, t, Target(x, y, t));
    if h >= 0 {
      TargetsDistinct(x, y, h, t);
    }
  }

  /** Drawing the same sprite at the same place twice restores the
      framebuffer: XOR is its own inverse and no cell is hit twice. */
  lemma DrawTwice(c: seq<u8>, sprite: seq<u8>, x: nat, y: nat)
    requires |c| == PIXELS && |sprite| <= MAX_ROWS
    ensures var n := 8 * |sprite|;
      DrawFold(DrawFold(c, sprite, x, y, n), sprite, x, y, n) == c
  {
    var n := 8 * |sprite|;
    var once := DrawFold(c, sprite, x, y, n);
    var twice := DrawFold(once, sprite, x, y, n);
    forall p | 0 <= p < PIXELS
      ensures twice[p] == c[p]
    {
      DrawFoldAt(c, sprite, x, y, n, p);
      DrawFoldAt(once, sprite, x, y, n, p);
    }
  }

  /** Scan position s sets a bit on a cell that was lit before the draw. */
  predicate LitMeetsBit(c: seq<u8>, sprite: seq<u8>, x: nat, y: nat, s: nat)
    requires |c| == PIXELS && s < 8 * |sprite|
  {
    c[Target(x, y, s)] == 1 && Bit(sprite, s) == 1
  }

  /** The collision flag is 1 exactly when some set sprite bit landed on a
      cell that was 1 before the draw. */
  lemma {:induction false} CollisionIff(c: seq<u8>, sprite: seq<u8>, x: nat, y: nat, t: nat)
    requires |c| == PIXELS && |sprite| <= MAX_ROWS && t <= 8 * |sprite|
    ensures Collision(c, sprite, x, y, t) == 1
      <==> exists s :: 0 <= s < t && LitMeetsBit(c, sprite, x, y, s)
  {
    if t > 0 {
      CollisionIff(c, sprite, x, y, t - 1);
      UntouchedBeforeDrawn(c, sprite, x, y, t - 1);
      var last := LitMeetsBit(c, sprite, x, y, t - 1);
      assert Collision(c, sprite, x, y, t) == if last then 1 else Collision(c, sprite, x, y, t - 1);
      LitMeetsBitSplit(c, sprite, x, y, t);
    }
  }

  /** Some position below t collides iff some position below t - 1 does
      or position t - 1 does. */
  lemma LitMeetsBitSplit(c: seq<u8>, sprite: seq<u8>, x: nat, y: nat, t: nat)
    requires |c| == PIXELS && 0 < t <= 8 * |sprite|
    ensures (exists s :: 0 <= s < t && LitMeetsBit(c, sprite, x, y, s))
      <==> (exists s :: 0 <= s < t - 1 && LitMeetsBit(c, sprite, x, y, s))
           || LitMeetsBit(c, sprite, x, y, t - 1)
  {
    if exists s :: 0 <= s < t && LitMeetsBit(c, sprite, x, y, s) {
      var s :| 0 <= s < t && LitMeetsBit(c, sprite, x, y, s);
      if s < t - 1 {
        assert exists s :: 0 <= s < t - 1 && LitMeetsBit(c, sprite, x, y, s);
      }
    }
  }

  /** A framebuffer of 0/1 cells stays one. */
  lemma {:induction false} DrawKeepsBinary(c: seq<u8>, sprite: seq<u8>, x: nat, y: nat, t: nat)
    requires |c| == PIXELS && t <= 8 * |sprite|
    requires forall p :: 0 <= p < PIXELS ==> c[p] == 0 || c[p] == 1
    ensures forall p :: 0 <= p < PIXELS ==>
      DrawFold(c, sprite, x, y, t)[p] == 0 || DrawFold(c, sprite, x, y, t)[p] == 1
  {
    if t > 0 {
      DrawKeepsBinary(c, sprite, x, y, t - 1);
      var d := DrawFold(c, sprite, x, y, t - 1);
      var q := Target(x, y, t - 1);
      assert d[q] == 0 || d[q] == 1;
      XorBinary(d[q], Bit(sprite, t - 1));
    }
  }

  /** XOR of two bits is a bit. */
  lemma XorBinary(a: u8, b: u8)
    requires (a == 0 || a == 1) && (b == 0 || b == 1)
    ensures a ^ b == 0 || a ^ b == 1
  {
  }

  /** On a blank framebuffer nothing collides and every hit cell shows its
      sprite bit. */
  lemma DrawOnBlank(sprite: seq<u8>, x: nat, y: nat, p: nat)
    requires |sprite| <= MAX_ROWS && p < PIXELS
    ensures var blank := seq(PIXELS, _ => 0);
      var n := 8 * |sprite|;
      var h := LastHit(x, y, n, p);
      Collision(blank, sprite, x, y, n) == 0
      && DrawFold(blank, sprite, x, y, n)[p] == if h >= 0 then Bit(sprite, h) else 0
  {
    var blank: seq<u8> := seq(PIXELS, _ => 0);
    var n := 8 * |sprite|;
    CollisionIff(blank, sprite, x, y, n);
    DrawFoldAt(blank, sprite, x, y, n, p);
  }
}
