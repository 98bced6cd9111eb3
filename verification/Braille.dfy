/** The traffic graph drawn in braille cells (internal/rate/braille.go), over real-valued rates. */
module Graph {
  import opened Prelude

  const DOTS_WIDE := 2
  const DOTS_TALL := 4

  /** A code point. */
  type Rune = int

  const BRAILLE_BASE: Rune := 0x2800

  /** The bit that raises a dot, by column then by row from the top of the cell. */
  function DotBit(dx: nat, dy: nat): (bit: Rune)
    requires dx < DOTS_WIDE && dy < DOTS_TALL
    ensures bit > 0
  {
    if dx == 0 then
      (if dy == 0 then 0x01 else if dy == 1 then 0x02 else if dy == 2 then 0x04 else 0x40)
    else
      (if dy == 0 then 0x08 else if dy == 1 then 0x10 else if dy == 2 then 0x20 else 0x80)
  }

  ghost predicate OneBit(n: nat) {
    n == 1 || (n > 0 && n % 2 == 0 && OneBit(n / 2))
  }

  /** Whether a code point has a bit set: bitwise and with a power of two is not zero. */
  predicate Has(rune: Rune, bit: nat)
    decreases bit
  {
    if bit <= 1 then rune % 2 == 1 else Has(rune / 2, bit / 2)
  }

  /** Bitwise or with a power of two: the bit is added unless it is there. */
  function Or(rune: Rune, bit: nat): Rune {
    if Has(rune, bit) then rune else rune + bit
  }

  /** Setting one bit sets that bit and no other. */
  lemma {:induction false} AddedBit(rune: Rune, bit: nat, other: nat)
    requires OneBit(bit) && OneBit(other) && !Has(rune, bit)
    ensures Has(rune + bit, other) <==> Has(rune, other) || other == bit
    decreases bit
  {
    if bit > 1 && other > 1 {
      assert (rune + bit) / 2 == rune / 2 + bit / 2;
      AddedBit(rune / 2, bit / 2, other / 2);
    } else if bit == 1 && other > 1 {
      assert (rune + 1) / 2 == rune / 2;
    }
  }

  predicate Raised(rune: Rune, dx: nat, dy: nat)
    requires dx < DOTS_WIDE && dy < DOTS_TALL
  {
    Has(rune, DotBit(dx, dy))
  }

  /** U+2800 to U+28FF. */
  predicate InBrailleBlock(rune: Rune) {
    BRAILLE_BASE <= rune <= BRAILLE_BASE + 0xFF
  }

  function ShiftRight(rune: Rune, bits: nat): Rune
    decreases bits
  {
    if bits == 0 then rune else ShiftRight(rune / 2, bits - 1)
  }

  lemma HighByte(rune: Rune)
    ensures ShiftRight(rune, 8) == 0x28 <==> InBrailleBlock(rune)
  {
    var r1 := rune / 2;
    var r2 := r1 / 2;
    var r3 := r2 / 2;
    var r4 := r3 / 2;
    assert ShiftRight(rune, 8) == ShiftRight(r1, 7) == ShiftRight(r2, 6) == ShiftRight(r3, 5) == ShiftRight(r4, 4);
    var r5 := r4 / 2;
    var r6 := r5 / 2;
    var r7 := r6 / 2;
    assert ShiftRight(r4, 4) == ShiftRight(r5, 3) == ShiftRight(r6, 2) == ShiftRight(r7, 1) == r7 / 2;
    assert r4 == rune / 16;
    assert r7 / 2 == r4 / 16;
  }

  /** Setting a clear bit does not carry into the bits above it. */
  lemma {:induction false} AddedBitDoesNotCarry(rune: Rune, bit: nat, size: nat, bits: nat)
    requires OneBit(bit) && OneBit(size) && bit < size && !Has(rune, bit)
    requires bits > 0 && ShiftRight(size, bits) == 1
    ensures ShiftRight(rune + bit, bits) == ShiftRight(rune, bits)
    decreases bit
  {
    if bit > 1 {
      assert (rune + bit) / 2 == rune / 2 + bit / 2;
      AddedBitDoesNotCarry(rune / 2, bit / 2, size / 2, bits - 1);
    } else {
      assert (rune + 1) / 2 == rune / 2;
    }
  }

  lemma BlankCell()
    ensures InBrailleBlock(BRAILLE_BASE)
    ensures forall dx: nat, dy: nat :: dx < DOTS_WIDE && dy < DOTS_TALL ==> !Raised(BRAILLE_BASE, dx, dy)
  {
    assert !Has(0x2800, 0x01) && !Has(0x2800, 0x02) && !Has(0x2800, 0x04) && !Has(0x2800, 0x08);
    assert !Has(0x2800, 0x10) && !Has(0x2800, 0x20) && !Has(0x2800, 0x40) && !Has(0x2800, 0x80);
  }

  lemma DotsAreSingleBits(dx: nat, dy: nat)
    requires dx < DOTS_WIDE && dy < DOTS_TALL
    ensures OneBit(DotBit(dx, dy)) && DotBit(dx, dy) < 0x100
  {
    assert OneBit(0x01) && OneBit(0x02) && OneBit(0x04) && OneBit(0x08);
    assert OneBit(0x10) && OneBit(0x20) && OneBit(0x40) && OneBit(0x80);
  }

  /**
   The number a dot has in the Unicode braille block: down the left column and down the right one for
   the six upper dots, then the two at the bottom.
   */
  function DotNumber(dx: nat, dy: nat): (n: nat)
    requires dx < DOTS_WIDE && dy < DOTS_TALL
    ensures 1 <= n <= 8
  {
    if dy < 3 then 3 * dx + dy + 1 else 7 + dx
  }

  function PowerOfTwo(n: nat): nat {
    if n == 0 then 1 else 2 * PowerOfTwo(n - 1)
  }

  /** The table of bits is the numbering of the block: dot n is bit n - 1. */
  lemma BitsFollowTheBlock(dx: nat, dy: nat)
    requires dx < DOTS_WIDE && dy < DOTS_TALL
    ensures DotBit(dx, dy) == PowerOfTwo(DotNumber(dx, dy) - 1)
  {
    assert PowerOfTwo(2) == 0x04 && PowerOfTwo(3) == 0x08 && PowerOfTwo(4) == 0x10;
    assert PowerOfTwo(5) == 0x20 && PowerOfTwo(6) == 0x40 && PowerOfTwo(7) == 0x80;
  }

  lemma RaisingOneDot(rune: Rune, dx: nat, dy: nat)
    requires dx < DOTS_WIDE && dy < DOTS_TALL
    ensures forall ex: nat, ey: nat :: ex < DOTS_WIDE && ey < DOTS_TALL ==>
      (Raised(Or(rune, DotBit(dx, dy)), ex, ey) <==> Raised(rune, ex, ey) || (ex == dx && ey == dy))
    ensures InBrailleBlock(rune) ==> InBrailleBlock(Or(rune, DotBit(dx, dy)))
  {
    var bit := DotBit(dx, dy);
    DotsAreSingleBits(dx, dy);
    forall ex: nat, ey: nat | ex < DOTS_WIDE && ey < DOTS_TALL
      ensures Raised(Or(rune, bit), ex, ey) <==> Raised(rune, ex, ey) || (ex == dx && ey == dy)
    {
      DotsAreSingleBits(ex, ey);
      if !Has(rune, bit) {
        AddedBit(rune, bit, DotBit(ex, ey));
      }
    }
    if !Has(rune, bit) {
      assert OneBit(0x80) && OneBit(0x100) && ShiftRight(0x100, 8) == 1;
      AddedBitDoesNotCarry(rune, bit, 0x100, 8);
      HighByte(rune);
      HighByte(rune + bit);
    }
  }

  // ---------------------------------------------------------------- levels

  /** Go's conversion of a float to an int: truncation toward zero. */
  function Truncate(x: real): int {
    if x < 0.0 then -((-x).Floor) else x.Floor
  }

  /** A value on the scale where the peak is `tall`. */
  function Scaled(v: real, tall: nat, peak: real): real
    requires peak > 0.0
  {
    v / peak * tall as real
  }

  function Level(v: real, tall: nat, peak: real): (level: nat)
    requires peak > 0.0
    ensures level <= tall
  {
    Min(Max(Truncate(Scaled(v, tall, peak)), 0), tall)
  }

  function LevelAt(kept: seq<real>, c: nat, columns: nat, tall: nat, peak: real): (level: nat)
    requires |kept| <= columns && c < columns
    ensures level <= tall
  {
    var offset := columns - |kept|;
    if peak <= 0.0 || c < offset then 0 else Level(kept[c - offset], tall, peak)
  }

  /** The number of dots each column raises: the last values, right-aligned. */
  function LevelsOf(values: seq<real>, columns: nat, tall: nat, peak: real): (levels: seq<nat>)
    ensures |levels| == columns
    ensures forall c :: 0 <= c < columns ==> levels[c] <= tall
  {
    var kept := LastOf(values, columns);
    seq(columns, c requires 0 <= c < columns => LevelAt(kept, c, columns, tall, peak))
  }

  method ComputeLevels(values: seq<real>, columns: nat, tall: nat, peak: real) returns (levels: array<nat>)
    ensures fresh(levels) && levels[..] == LevelsOf(values, columns, tall, peak)
  {
    var kept := values;
    if |kept| > columns {
      kept := kept[|kept| - columns..];
    }
    levels := new nat[columns](_ => 0);
    if peak <= 0.0 {
      return;
    }
    var offset := columns - |kept|;
    for i := 0 to |kept|
      invariant forall c :: 0 <= c < columns ==>
        levels[c] == if offset <= c < offset + i then Level(kept[c - offset], tall, peak) else 0
    {
      var level := Truncate(Scaled(kept[i], tall, peak));
      levels[offset + i] := Min(Max(level, 0), tall);
    }
  }

  lemma ScaleIsMonotone(v: real, w: real, tall: nat, peak: real)
    requires peak > 0.0 && v <= w
    ensures Scaled(v, tall, peak) <= Scaled(w, tall, peak)
  {
    var t := tall as real;
    assert (w - v) / peak >= 0.0;
    assert w / peak == v / peak + (w - v) / peak;
    assert w / peak * t == v / peak * t + (w - v) / peak * t;
  }

  lemma TruncateIsMonotone(x: real, y: real)
    requires x <= y
    ensures Truncate(x) <= Truncate(y)
  {
  }

  /** A larger value never draws lower. */
  lemma LevelFollowsValue(v: real, w: real, tall: nat, peak: real)
    requires peak > 0.0 && v <= w
    ensures Level(v, tall, peak) <= Level(w, tall, peak)
  {
    ScaleIsMonotone(v, w, tall, peak);
    TruncateIsMonotone(Scaled(v, tall, peak), Scaled(w, tall, peak));
  }

  lemma PeakDrawsFull(tall: nat, peak: real)
    requires peak > 0.0
    ensures Level(peak, tall, peak) == tall
  {
    var share := peak / peak;
    assert share * peak == peak;
    assert share == 1.0;
    assert Scaled(peak, tall, peak) == tall as real;
  }

  /** Nothing at or below zero draws at all, and whatever reaches the peak draws to the top. */
  lemma LevelEnds(v: real, tall: nat, peak: real)
    requires peak > 0.0
    ensures v <= 0.0 ==> Level(v, tall, peak) == 0
    ensures v >= peak ==> Level(v, tall, peak) == tall
  {
    if v <= 0.0 {
      assert Scaled(0.0, tall, peak) == 0.0;
      LevelFollowsValue(v, 0.0, tall, peak);
    } else if v >= peak {
      PeakDrawsFull(tall, peak);
      LevelFollowsValue(peak, v, tall, peak);
    }
  }

  /** A value between nothing and the peak draws the one height that is its share of the graph, rounded down. */
  lemma LevelIsTheShare(v: real, tall: nat, peak: real, n: nat)
    requires 0.0 <= v < peak
    ensures n == Level(v, tall, peak) <==> n as real * peak <= v * tall as real < (n + 1) as real * peak
  {
    var scaled := Scaled(v, tall, peak);
    ScaledBack(v, tall, peak);
    ScaleIsMonotone(0.0, v, tall, peak);
    ScaleIsMonotone(v, peak, tall, peak);
    PeakDrawsFull(tall, peak);
    assert Level(v, tall, peak) == scaled.Floor;
    FloorBetween(scaled, peak, v * tall as real, n);
  }

  lemma FloorBetween(share: real, peak: real, product: real, n: nat)
    requires peak > 0.0 && share * peak == product
    ensures n == share.Floor <==> n as real * peak <= product < (n + 1) as real * peak
  {
    Between(share, peak, product, n as real, (n + 1) as real);
    assert n == share.Floor <==> n as real <= share < (n + 1) as real;
  }

  lemma Between(share: real, peak: real, product: real, low: real, high: real)
    requires peak > 0.0 && share * peak == product
    ensures low <= share < high <==> low * peak <= product < high * peak
  {
    TimesKeepsOrder(low, share, peak);
    TimesKeepsOrder(high, share, peak);
  }

  lemma ScaledBack(v: real, tall: nat, peak: real)
    requires peak > 0.0
    ensures Scaled(v, tall, peak) * peak == v * tall as real
  {
    var share, t := v / peak, tall as real;
    assert share * peak == v;
    assert share * t * peak == share * peak * t;
  }

  lemma TimesKeepsOrder(x: real, y: real, factor: real)
    requires factor > 0.0
    ensures x <= y <==> x * factor <= y * factor
  {
    if x <= y {
      assert (y - x) * factor >= 0.0;
      assert y * factor == x * factor + (y - x) * factor;
    } else {
      assert (x - y) * factor > 0.0;
      assert x * factor == y * factor + (x - y) * factor;
    }
  }

  /** Column `columns - 1 - k` draws the value `k` places before the newest, and nothing where there is none. */
  lemma NewestIsRightmost(values: seq<real>, columns: nat, tall: nat, peak: real, k: nat)
    requires k < columns
    ensures LevelsOf(values, columns, tall, peak)[columns - 1 - k]
         == if k < |values| && peak > 0.0 then Level(values[|values| - 1 - k], tall, peak) else 0
  {
  }

  // ---------------------------------------------------------------- drawing

  /** How high above the bottom of the graph a dot of row y sits. */
  function FromBottom(y: int, dy: int, height: int): int {
    (height - 1 - y) * DOTS_TALL + (DOTS_TALL - 1 - dy)
  }

  ghost predicate CellDraws(rune: Rune, levels: seq<nat>, x: nat, y: nat, height: nat)
    requires x * DOTS_WIDE + 1 < |levels|
  {
    && InBrailleBlock(rune)
    && forall dx: nat, dy: nat :: dx < DOTS_WIDE && dy < DOTS_TALL ==>
      (Raised(rune, dx, dy) <==> FromBottom(y, dy, height) < levels[x * DOTS_WIDE + dx])
  }

  method Cell(levels: array<nat>, x: nat, y: nat, height: nat) returns (pattern: Rune)
    requires x * DOTS_WIDE + 1 < levels.Length
    ensures CellDraws(pattern, levels[..], x, y, height)
  {
    pattern := BRAILLE_BASE;
    BlankCell();
    for dx := 0 to DOTS_WIDE
      invariant InBrailleBlock(pattern)
      invariant forall ex: nat, ey: nat :: ex < DOTS_WIDE && ey < DOTS_TALL ==>
        (Raised(pattern, ex, ey) <==> ex < dx && FromBottom(y, ey, height) < levels[x * DOTS_WIDE + ex])
    {
      var level := levels[x * DOTS_WIDE + dx];
      for dy := 0 to DOTS_TALL
        invariant InBrailleBlock(pattern)
        invariant forall ex: nat, ey: nat :: ex < DOTS_WIDE && ey < DOTS_TALL ==>
          (Raised(pattern, ex, ey) <==>
            (ex < dx || (ex == dx && ey < dy)) && FromBottom(y, ey, height) < levels[x * DOTS_WIDE + ex])
      {
        if FromBottom(y, dy, height) < level {
          RaisingOneDot(pattern, dx, dy);
          ghost var was := pattern;
          pattern := Or(pattern, DotBit(dx, dy));
          assert forall ex: nat, ey: nat :: ex < DOTS_WIDE && ey < DOTS_TALL ==>
            (Raised(pattern, ex, ey) <==> Raised(was, ex, ey) || (ex == dx && ey == dy));
        }
      }
    }
  }

  /** A grid of `height` rows of `width` braille cells that draws the given levels. */
  ghost predicate Draws(rows: seq<seq<Rune>>, width: nat, height: nat, levels: seq<nat>)
    requires |levels| == width * DOTS_WIDE
  {
    && |rows| == height
    && (forall y :: 0 <= y < height ==> |rows[y]| == width)
    && forall x: nat, y: nat :: x < width && y < height ==> CellDraws(rows[y][x], levels, x, y, height)
  }

  method Braille(values: seq<real>, width: int, height: int, peak: real) returns (rows: seq<seq<Rune>>)
    ensures height <= 0 ==> rows == []
    ensures height > 0 && width <= 0 ==> rows == seq(height, _ => [])
    ensures height > 0 && width > 0 ==>
      Draws(rows, width, height, LevelsOf(values, width * DOTS_WIDE, height * DOTS_TALL, peak))
  {
    if height <= 0 {
      return [];
    }
    var grid := new seq<Rune>[height](_ => []);
    if width <= 0 {
      return grid[..];
    }
    var levels := ComputeLevels(values, width * DOTS_WIDE, height * DOTS_TALL, peak);
    for y := 0 to height
      invariant forall r :: 0 <= r < y ==> |grid[r]| == width
      invariant forall x: nat, r: nat :: x < width && r < y ==> CellDraws(grid[r][x], levels[..], x, r, height)
      invariant levels[..] == LevelsOf(values, width * DOTS_WIDE, height * DOTS_TALL, peak)
    {
      var row: seq<Rune> := [];
      ghost var above, drawn := grid[..], levels[..];
      for x := 0 to width
        invariant |row| == x && grid[..] == above && levels[..] == drawn
        invariant forall c: nat :: c < x ==> CellDraws(row[c], levels[..], c, y, height)
      {
        var rune := Cell(levels, x, y, height);
        row := row + [rune];
      }
      grid[y] := row;
    }
    return grid[..];
  }

  // ---------------------------------------------------------------- reading a graph back

  /** Whether the dot at height h (0 is the bottom) of a dot column is up. */
  predicate DotUp(rows: seq<seq<Rune>>, width: nat, height: nat, column: nat, h: nat)
    requires |rows| == height && forall y :: 0 <= y < height ==> |rows[y]| == width
    requires column < width * DOTS_WIDE && h < height * DOTS_TALL
  {
    Raised(rows[height - 1 - h / DOTS_TALL][column / DOTS_WIDE], column % DOTS_WIDE, DOTS_TALL - 1 - h % DOTS_TALL)
  }

  /** The number of dots raised among the lowest h of a column. */
  function DotsBelow(rows: seq<seq<Rune>>, width: nat, height: nat, column: nat, h: nat): nat
    requires |rows| == height && forall y :: 0 <= y < height ==> |rows[y]| == width
    requires column < width * DOTS_WIDE && h <= height * DOTS_TALL
  {
    if h == 0 then 0
    else DotsBelow(rows, width, height, column, h - 1) + if DotUp(rows, width, height, column, h - 1) then 1 else 0
  }

  /** Every column is a solid bar from the bottom, exactly as high as its level. */
  lemma ColumnsAreBars(rows: seq<seq<Rune>>, width: nat, height: nat, levels: seq<nat>, column: nat, h: nat)
    requires |levels| == width * DOTS_WIDE && Draws(rows, width, height, levels)
    requires column < width * DOTS_WIDE && h < height * DOTS_TALL
    ensures DotUp(rows, width, height, column, h) <==> h < levels[column]
  {
    var x, y, dx, dy :=
      column / DOTS_WIDE, height - 1 - h / DOTS_TALL, column % DOTS_WIDE, DOTS_TALL - 1 - h % DOTS_TALL;
    assert CellDraws(rows[y][x], levels, x, y, height);
    assert FromBottom(y, dy, height) == h;
  }

  lemma {:induction false} DotsBelowCounts(rows: seq<seq<Rune>>, width: nat, height: nat, levels: seq<nat>,
      column: nat, h: nat)
    requires |levels| == width * DOTS_WIDE && Draws(rows, width, height, levels)
    requires column < width * DOTS_WIDE && h <= height * DOTS_TALL
    ensures DotsBelow(rows, width, height, column, h) == Min(h, levels[column])
  {
    if h > 0 {
      DotsBelowCounts(rows, width, height, levels, column, h - 1);
      ColumnsAreBars(rows, width, height, levels, column, h - 1);
    }
  }

  /** Counting the dots of a drawn graph gives back the levels it was drawn from. */
  lemma DecodingGivesLevels(rows: seq<seq<Rune>>, values: seq<real>, width: nat, height: nat, peak: real)
    requires Draws(rows, width, height, LevelsOf(values, width * DOTS_WIDE, height * DOTS_TALL, peak))
    ensures seq(width * DOTS_WIDE, c requires 0 <= c < width * DOTS_WIDE =>
              DotsBelow(rows, width, height, c, height * DOTS_TALL))
         == LevelsOf(values, width * DOTS_WIDE, height * DOTS_TALL, peak)
  {
    var levels := LevelsOf(values, width * DOTS_WIDE, height * DOTS_TALL, peak);
    forall c: nat | c < width * DOTS_WIDE
      ensures DotsBelow(rows, width, height, c, height * DOTS_TALL) == levels[c]
    {
      DotsBelowCounts(rows, width, height, levels, c, height * DOTS_TALL);
    }
  }
}
