/** The integer part of the updater's chart: a 24 x 10 grid of glyphs, one
    column per sampled history entry, each column filled up to the sample's
    level on a scale that always reaches 0 and at least 10. Pixel
    coordinates, fonts and labels are not modelled. */
module Chart {

  const ChartWidth: nat := 24
  const ChartHeight: nat := 10

  const Filled: char := '█'
  const Empty: char := '·'

  /** `Math.max(...data, 10)`. */
  function MaxCount(data: seq<int>): (r: int)
    ensures r >= 10
    ensures forall k :: 0 <= k < |data| ==> data[k] <= r
    ensures r == 10 || r in data
  {
    if data == [] then 10
    else
      var m := MaxCount(data[..|data| - 1]);
      var last := data[|data| - 1];
      assert forall k :: 0 <= k < |data| - 1 ==> data[k] == data[..|data| - 1][k];
      if last > m then last else m
  }

  /** `Math.min(...data, 0)`. */
  function MinCount(data: seq<int>): (r: int)
    ensures r <= 0
    ensures forall k :: 0 <= k < |data| ==> r <= data[k]
    ensures r == 0 || r in data
  {
    if data == [] then 0
    else
      var m := MinCount(data[..|data| - 1]);
      var last := data[|data| - 1];
      assert forall k :: 0 <= k < |data| - 1 ==> data[k] == data[..|data| - 1][k];
      if last < m then last else m
  }

  /** `Math.floor((i / 24) * (data.length - 1))`, computed exactly. For an
      empty series the index is 0 or -1, and `data[index]` is undefined. */
  function ColumnIndex(i: nat, len: nat): (r: int)
    requires i < ChartWidth
    ensures len > 0 ==> 0 <= r < len
    ensures len > 0 ==> r * ChartWidth <= i * (len - 1) < (r + 1) * ChartWidth
    ensures len == 0 ==> r == (if i == 0 then 0 else -1)
  {
    (i * (len - 1)) / ChartWidth
  }

  /** `normalizedValue`: the number of cells a value fills, with exact division. */
  function Level(value: int, minCount: int, maxCount: int): (r: nat)
    requires minCount <= value <= maxCount && minCount < maxCount
    ensures r <= ChartHeight
    ensures r * (maxCount - minCount) <= (value - minCount) * ChartHeight
    ensures (value - minCount) * ChartHeight < (r + 1) * (maxCount - minCount)
  {
    ((value - minCount) * ChartHeight) / (maxCount - minCount)
  }

  /** How many cells column `i` fills. An index outside the series reads
      `undefined`, whose level is NaN, which fills no cell. */
  function ColumnHeight(data: seq<int>, i: nat): (h: nat)
    requires i < ChartWidth
    ensures h <= ChartHeight
    ensures 0 <= ColumnIndex(i, |data|) < |data| ==>
      h == Level(data[ColumnIndex(i, |data|)], MinCount(data), MaxCount(data))
    ensures !(0 <= ColumnIndex(i, |data|) < |data|) ==> h == 0
  {
    var index := ColumnIndex(i, |data|);
    if 0 <= index < |data| then Level(data[index], MinCount(data), MaxCount(data)) else 0
  }

  /** The glyph of row `j` (0 is the bottom row) of a column that fills `h`
      cells, as written: `j >= chartHeight - normalizedValue`. */
  function GlyphAsWritten(h: nat, j: nat): (c: char)
    ensures c == Filled <==> j + h >= ChartHeight
    ensures c == Filled || c == Empty
  {
    if j >= ChartHeight - h then Filled else Empty
  }

  /** The glyph of row `j` (0 is the bottom row) of a bar of height `h`: the
      bar stands on the bottom axis. */
  function Glyph(h: nat, j: nat): (c: char)
    ensures c == Filled <==> j < h
    ensures c == Filled || c == Empty
  {
    if j < h then Filled else Empty
  }

  /** As written, a column with a level below 10 leaves its bottom cell empty
      and fills the top one: a single sample of 3 players on the 0..10 scale
      is drawn as three cells hanging from the top edge. */
  lemma BarHangsFromTop()
    ensures ColumnHeight([3], 0) == 3
    ensures GlyphAsWritten(ColumnHeight([3], 0), 0) == Empty
    ensures GlyphAsWritten(ColumnHeight([3], 0), ChartHeight - 1) == Filled
    ensures Glyph(ColumnHeight([3], 0), 0) == Filled
    ensures Glyph(ColumnHeight([3], 0), ChartHeight - 1) == Empty
  {
    assert MaxCount([3]) == 10 by { assert [3][..0] == []; }
    assert MinCount([3]) == 0 by { assert [3][..0] == []; }
  }

  /** The column as written is the bar turned upside down; the two agree
      exactly when the column is empty or full. */
  lemma GlyphPlacements(h: nat)
    requires h <= ChartHeight
    ensures forall j :: 0 <= j < ChartHeight ==> GlyphAsWritten(h, j) == Glyph(h, ChartHeight - 1 - j)
    ensures (forall j :: 0 <= j < ChartHeight ==> GlyphAsWritten(h, j) == Glyph(h, j)) <==> (h == 0 || h == ChartHeight)
  {
    if 0 < h < ChartHeight {
      assert GlyphAsWritten(h, 0) != Glyph(h, 0);
    }
  }

  /** The scale never clips: every column's level lies in [0, 10], the
      divisor is positive, and a sample equal to the largest count reaches
      the top of the grid. */
  lemma {:induction false} ScaleNeverClips(data: seq<int>, i: nat)
    requires i < ChartWidth
    ensures MinCount(data) <= 0 < 10 <= MaxCount(data)
    ensures ColumnHeight(data, i) <= ChartHeight
    ensures |data| > 0 && data[ColumnIndex(i, |data|)] == MaxCount(data) ==> ColumnHeight(data, i) == ChartHeight
  {
    if |data| > 0 && data[ColumnIndex(i, |data|)] == MaxCount(data) {
      LevelAtTop(MinCount(data), MaxCount(data));
    }
  }

  lemma LevelAtTop(minCount: int, maxCount: int)
    requires minCount < maxCount
    ensures Level(maxCount, minCount, maxCount) == ChartHeight
  {
    var d, r := maxCount - minCount, Level(maxCount, minCount, maxCount);
    assert ChartHeight * d < (r + 1) * d;
    MulLeCancel(ChartHeight, r, d);
  }

  /** Cancelling a positive factor. */
  lemma MulLeCancel(a: int, b: int, d: int)
    requires d > 0 && a * d < (b + 1) * d
    ensures a <= b
  {
  }

  /** A larger sample never draws a shorter bar. */
  lemma LevelMonotone(v: int, w: int, minCount: int, maxCount: int)
    requires minCount <= v <= w <= maxCount && minCount < maxCount
    ensures Level(v, minCount, maxCount) <= Level(w, minCount, maxCount)
  {
    var d := maxCount - minCount;
    var a, b := Level(v, minCount, maxCount), Level(w, minCount, maxCount);
    assert (v - minCount) * ChartHeight <= (w - minCount) * ChartHeight;
    assert a * d < (b + 1) * d;
    MulLeCancel(a, b, d);
  }

  /** An empty history draws an empty grid (no division by zero). */
  lemma EmptyHistoryDrawsNothing(i: nat, j: nat)
    requires i < ChartWidth && j < ChartHeight
    ensures Glyph(ColumnHeight([], i), j) == Empty
  {
  }

  /** The nested loops of the drawing code: column `i` samples the series at
      `ColumnIndex` and row `j` gets a filled or an empty glyph. */
  method DrawGrid(data: seq<int>) returns (grid: array2<char>)
    ensures fresh(grid)
    ensures grid.Length0 == ChartWidth && grid.Length1 == ChartHeight
    ensures forall i, j :: 0 <= i < ChartWidth && 0 <= j < ChartHeight ==>
      grid[i, j] == Glyph(ColumnHeight(data, i), j)
  {
    grid := new char[ChartWidth, ChartHeight];
    var maxCount := MaxCount(data);
    var minCount := MinCount(data);
    for i := 0 to ChartWidth
      invariant forall i', j :: 0 <= i' < i && 0 <= j < ChartHeight ==>
        grid[i', j] == Glyph(ColumnHeight(data, i'), j)
    {
      var index := ColumnIndex(i, |data|);
      var level := if 0 <= index < |data| then Level(data[index], minCount, maxCount) else 0;
      for j := 0 to ChartHeight
        invariant forall i', j' :: 0 <= i' < i && 0 <= j' < ChartHeight ==>
          grid[i', j'] == Glyph(ColumnHeight(data, i'), j')
        invariant forall j' :: 0 <= j' < j ==> grid[i, j'] == Glyph(level, j')
      {
        grid[i, j] := Glyph(level, j);
      }
    }
  }
}
