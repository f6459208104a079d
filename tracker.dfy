/// The camera side of the link: `pixel_to_grid`, which maps a marker's
/// pixel centre to a cell of the board's grid, and `send_marker_data`, which
/// picks the largest detected marker and formats the line the firmware
/// reads, `"<id>,<row>,<col>\n"`.
module Tracker {
  import opened Ints
  import opened Wrappers
  import opened Scan

  /// A grid cell, 0-based.
  datatype Cell = Cell(row: int, col: int)

  /// `pixel_to_grid(cx, cy, frame_width, frame_height, grid_size)`: the cell
  /// a pixel falls in, pixels outside the frame being moved to the nearest
  /// border cell. A zero frame size or grid size raises in the source, so
  /// all three must be positive.
  function PixelToGrid(cx: int, cy: int, frameWidth: int, frameHeight: int, gridSize: int): (c: Cell)
    requires frameWidth > 0 && frameHeight > 0 && gridSize > 0
    ensures 0 <= c.row < gridSize && 0 <= c.col < gridSize
  {
    var col := TruncDiv(cx * gridSize, frameWidth);
    var row := TruncDiv(cy * gridSize, frameHeight);
    Cell(Clamp(row, 0, gridSize - 1), Clamp(col, 0, gridSize - 1))
  }

  /// The part of one axis, `0 <= p < size`, covered by cell `k` of `g`
  /// equal parts: `k * size / g <= p < (k + 1) * size / g`.
  predicate InStrip(p: int, size: int, g: int, k: int)
  {
    k * size <= p * g < (k + 1) * size
  }

  /// One axis of `pixel_to_grid` for a pixel inside the frame: the unclamped
  /// cell, which is exactly the strip the pixel lies in.
  lemma StripOfPixel(p: int, size: int, g: int)
    requires size > 0 && g > 0 && 0 <= p < size
    ensures 0 <= TruncDiv(p * g, size) < g
    ensures InStrip(p, size, g, TruncDiv(p * g, size))
  {
    var q := TruncDiv(p * g, size);
    MulMonotone(p, size - 1, g);
    if q >= g {
      MulMonotone(g, q, size);
    }
  }

  /// A pixel inside the frame lands in the cell whose strips contain it,
  /// and the clamping does not come into play.
  lemma {:induction false} PixelInsideFrame(cx: int, cy: int, frameWidth: int, frameHeight: int, gridSize: int)
    requires frameWidth > 0 && frameHeight > 0 && gridSize > 0
    requires 0 <= cx < frameWidth && 0 <= cy < frameHeight
    ensures var c := PixelToGrid(cx, cy, frameWidth, frameHeight, gridSize);
            InStrip(cx, frameWidth, gridSize, c.col) && InStrip(cy, frameHeight, gridSize, c.row)
  {
    StripOfPixel(cx, frameWidth, gridSize);
    StripOfPixel(cy, frameHeight, gridSize);
  }

  /// A pixel lies in at most one strip, so the cell is determined by it.
  lemma StripUnique(p: int, size: int, g: int, k1: int, k2: int)
    requires size > 0 && InStrip(p, size, g, k1) && InStrip(p, size, g, k2)
    ensures k1 == k2
  {
    if k1 < k2 {
      MulMonotone(k1 + 1, k2, size);
    } else if k2 < k1 {
      MulMonotone(k2 + 1, k1, size);
    }
  }

  /// Moving right never moves the column left, and moving down never moves
  /// the row up.
  lemma PixelToGridMonotone(cx1: int, cy1: int, cx2: int, cy2: int, frameWidth: int, frameHeight: int, gridSize: int)
    requires frameWidth > 0 && frameHeight > 0 && gridSize > 0
    requires cx1 <= cx2 && cy1 <= cy2
    ensures PixelToGrid(cx1, cy1, frameWidth, frameHeight, gridSize).col
            <= PixelToGrid(cx2, cy2, frameWidth, frameHeight, gridSize).col
    ensures PixelToGrid(cx1, cy1, frameWidth, frameHeight, gridSize).row
            <= PixelToGrid(cx2, cy2, frameWidth, frameHeight, gridSize).row
  {
    MulMonotone(cx1, cx2, gridSize);
    MulMonotone(cy1, cy2, gridSize);
    TruncDivMonotone(cx1 * gridSize, cx2 * gridSize, frameWidth);
    TruncDivMonotone(cy1 * gridSize, cy2 * gridSize, frameHeight);
  }

  /// One entry of the marker list: its id, its `'area'` (absent when the
  /// key is missing) and the cell `pixel_to_grid` gave it.
  datatype MarkerInfo = MarkerInfo(id: int, area: Option<real>, gridRow: int, gridCol: int)

  /// `m.get('area', 0)`.
  function AreaOf(m: MarkerInfo): real
  {
    match m.area
    case None => 0.0
    case Some(a) => a
  }

  /// `k` is the marker `sorted(..., key=area, reverse=True)[0]` picks: the
  /// sort is stable, so that is the first marker of largest area.
  predicate IsPrimary(ms: seq<MarkerInfo>, k: int)
  {
    && 0 <= k < |ms|
    && (forall j :: 0 <= j < |ms| ==> AreaOf(ms[j]) <= AreaOf(ms[k]))
    && (forall j :: 0 <= j < k ==> AreaOf(ms[j]) < AreaOf(ms[k]))
  }

  /// The index of the marker that is sent.
  function PrimaryIndex(ms: seq<MarkerInfo>): (k: nat)
    requires ms != []
    ensures IsPrimary(ms, k)
  {
    if |ms| == 1 then 0
    else
      var k := PrimaryIndex(ms[..|ms| - 1]);
      if AreaOf(ms[|ms| - 1]) > AreaOf(ms[k]) then |ms| - 1 else k
  }

  /// There is exactly one primary marker.
  lemma PrimaryUnique(ms: seq<MarkerInfo>, k1: int, k2: int)
    requires IsPrimary(ms, k1) && IsPrimary(ms, k2)
    ensures k1 == k2
  {
    // Both are of largest area, and an earlier one would be strictly larger.
    assert AreaOf(ms[k1]) == AreaOf(ms[k2]);
  }

  /// Python's `str` of a digit.
  function DigitChar(d: nat): (c: char)
    requires d < 10
    ensures IsDigit(c) && DigitValue(c) == d
  {
    ('0' as int + d) as char
  }

  /// Python's `str` of a non-negative integer: its decimal digits, without
  /// leading zeros.
  function NatToString(n: nat): (s: string)
    ensures |s| > 0 && AllDigits(s)
    ensures DigitsValue(s) == n
    ensures |s| > 1 ==> s[0] != '0'
  {
    if n < 10 then
      var s := [DigitChar(n)];
      assert s[..0] == [];
      s
    else
      var prefix := NatToString(n / 10);
      var s := prefix + [DigitChar(n % 10)];
      assert s[..|s| - 1] == prefix;
      s
  }

  /// Python's `str` of an integer.
  function IntToString(v: int): (s: string)
    ensures v < 0 ==> |s| > 1 && s[0] == '-' && AllDigits(s[1..]) && DigitsValue(s[1..]) == -v
    ensures v >= 0 ==> s == NatToString(v)
  {
    if v < 0 then
      var s := "-" + NatToString(-v);
      assert s[1..] == NatToString(-v);
      s
    else NatToString(v)
  }

  /// The three fields of the report, comma separated.
  function Record(m: MarkerInfo): string
  {
    IntToString(m.id) + "," + IntToString(m.gridRow) + "," + IntToString(m.gridCol)
  }

  /// `f"{primary['id']},{primary['grid_row']},{primary['grid_col']}\n"`.
  function FormatLine(m: MarkerInfo): string
  {
    Record(m) + "\n"
  }

  /// The line `send_marker_data(ser, marker_data_list)` writes, or None when
  /// it returns False without writing: no port, or no marker.
  function SendMarkerData(portOpen: bool, ms: seq<MarkerInfo>): (r: Option<string>)
    ensures r.None? <==> !portOpen || ms == []
    ensures r.Some? ==> exists k :: IsPrimary(ms, k) && r.value == FormatLine(ms[k])
  {
    if !portOpen || ms == [] then None
    else Some(FormatLine(ms[PrimaryIndex(ms)]))
  }
}
