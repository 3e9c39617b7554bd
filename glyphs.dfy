/** The digit glyph table and the digit arithmetic of `input_clock` and `input_nb`. */
module Glyphs {

  /** `numbers_image`: five text rows per glyph, glyph `n` at entries
      `n*5 .. n*5+4`; glyphs 0 to 9 are the digits, glyph 10 the colon.
      Written one glyph per line, as the flat table it is. */
  const NumbersImage: seq<string> :=
    [" #### ", "##  ##", "##  ##", "##  ##", " #### "] +
    ["  ##  ", " ###  ", "  ##  ", "  ##  ", " #### "] +
    [" #### ", "##  ##", "   ## ", "  ##  ", "######"] +
    [" #### ", "##  ##", "   ###", "##  ##", " #### "] +
    ["   ## ", "  ### ", " # ## ", "######", "   ## "] +
    ["######", "##    ", "##### ", "    ##", "##### "] +
    [" #### ", "##    ", "##### ", "##  ##", " #### "] +
    ["######", "   ## ", "  ##  ", " ##   ", "##    "] +
    [" #### ", "##  ##", " #### ", "##  ##", " #### "] +
    [" #### ", "##  ##", " #####", "    ##", " #### "] +
    ["   ",    " # ",    "   ",    " # ",    "   "]

  /** The glyph index `input_clock` passes for the colon. */
  const COLON: nat := 10

  /** Columns one glyph occupies: six for a digit, three for the colon. */
  function GlyphWidth(n: nat): nat {
    if n < 10 then 6 else 3
  }

  /** Row `i` of glyph `n`, as `input_nb` indexes it with `n * 5 + i`: for every
      glyph index up to the colon the index stays inside the 55-entry table,
      and the row has the glyph's width. */
  function GlyphRow(n: nat, i: nat): (row: string)
    requires n <= COLON && i < 5
    ensures |NumbersImage| == 55 && n * 5 + i < 55
    ensures |row| == GlyphWidth(n)
  {
    NumbersImage[n * 5 + i]
  }

  /** One text row drawn at column `x`, row `y`. */
  datatype Text = Text(x: int, y: int, s: string)

  /** `input_nb(n, x, y)`: the five rows of glyph `n`, drawn top to bottom from
      row `y` at column `x`. */
  function InputNb(n: nat, x: int, y: int): (rows: seq<Text>)
    requires n <= COLON
    ensures |rows| == 5
    ensures forall i :: 0 <= i < 5 ==>
              rows[i].x == x && rows[i].y == y + i && |rows[i].s| == GlyphWidth(n)
  {
    seq(5, i requires 0 <= i < 5 => Text(x, y + i, GlyphRow(n, i)))
  }

  /** The eight glyph indices `input_clock` passes to `input_nb` for the elapsed
      seconds `s`: hours (two digits), colon, minutes (two digits), colon,
      seconds (two digits). */
  function ClockGlyphs(s: nat): (g: seq<nat>)
    ensures |g| == 8
    ensures forall k :: 0 <= k < 8 ==> g[k] <= COLON
    ensures g[2] == COLON && g[5] == COLON
    ensures forall k :: 0 <= k < 8 && k != 2 && k != 5 ==> g[k] < 10
    ensures 10 * g[0] + g[1] == (s / 3600) % 100
    ensures 10 * g[3] + g[4] == (s / 60) % 60
    ensures 10 * g[6] + g[7] == s % 60
  {
    DigitsOfHours(s);
    DigitsOfMinutes(s);
    DigitsOfSeconds(s);
    var h1, h0 := (s / 36000) % 10, (s / 3600) % 10;
    var m1, m0 := (((s / 60) % 60) / 10) % 10, (s / 60) % 10;
    var s1, s0 := ((s % 60) / 10) % 10, s % 10;
    [h1, h0, COLON, m1, m0, COLON, s1, s0]
  }

  lemma DigitsOfSeconds(s: nat)
    ensures 10 * (((s % 60) / 10) % 10) + s % 10 == s % 60
  {
    assert (s % 60) % 10 == s % 10;
  }

  lemma DigitsOfHours(s: nat)
    ensures 10 * ((s / 36000) % 10) + (s / 3600) % 10 == (s / 3600) % 100
  {
    var h := s / 3600;
    assert s / 36000 == h / 10;
  }

  lemma DigitsOfMinutes(s: nat)
    ensures 10 * ((((s / 60) % 60) / 10) % 10) + (s / 60) % 10 == (s / 60) % 60
  {
    var m := s / 60;
    assert (m % 60) % 10 == m % 10;
  }

  /** Column offsets of the eight glyphs from the left edge of the big clock. */
  const GlyphOffsets: seq<int> := [0, 7, 13, 16, 23, 29, 32, 39]

  /** One glyph of the big clock, with its top-left cell. */
  datatype Cell = Cell(glyph: nat, x: int, y: int)

  /** The big clock `input_clock` draws around origin `(x, y)` for `s` seconds:
      eight glyphs on one line from 22 columns left and 3 rows up of the origin,
      none overlapping the next, spanning 45 columns up to `x + 23`. */
  function BigClockCells(x: int, y: int, s: nat): (cells: seq<Cell>)
    ensures |cells| == 8
    ensures forall k :: 0 <= k < 8 ==> cells[k].glyph <= COLON && cells[k].y == y - 3
    ensures forall k :: 0 <= k < 7 ==> cells[k].x + GlyphWidth(cells[k].glyph) <= cells[k + 1].x
    ensures cells[0].x == x - 22 && cells[7].x + GlyphWidth(cells[7].glyph) == x + 23
    ensures forall k :: 0 <= k < 8 ==> cells[k].glyph == ClockGlyphs(s)[k]
  {
    var g := ClockGlyphs(s);
    seq(8, k requires 0 <= k < 8 => Cell(g[k], x - 22 + GlyphOffsets[k], y - 3))
  }

  /** The three fields of the compact clock line, `%04d:%02d:%02d`, exactly as
      `input_clock` computes them: hours, then `tv_sec / 60`, then seconds. */
  function CompactFieldsAsWritten(s: nat): (int, int, int) {
    (s / 3600, s / 60, s % 60)
  }

  /** At one hour the compact line reads 0001:60:00: the minutes field is not
      reduced modulo 60, so the line counts the hour twice. */
  lemma CompactMinutesOverflow()
    ensures CompactFieldsAsWritten(3600) == (1, 60, 0)
    ensures var (h, m, sec) := CompactFieldsAsWritten(3600); h * 3600 + m * 60 + sec != 3600
  {
  }

  /** The compact fields as the big clock evidently intends them: minutes
      within the hour, so that the three fields give back the elapsed seconds. */
  function CompactFields(s: nat): (f: (int, int, int))
    ensures 0 <= f.0 && 0 <= f.1 < 60 && 0 <= f.2 < 60
    ensures f.0 * 3600 + f.1 * 60 + f.2 == s
    ensures f.0 == CompactFieldsAsWritten(s).0 && f.2 == CompactFieldsAsWritten(s).2
  {
    (s / 3600, (s / 60) % 60, s % 60)
  }
}
