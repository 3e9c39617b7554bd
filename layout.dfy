/** Terminal-size classification and the widget origins derived from it
    (`get_height_mode`, `get_width_mode`, `input_frame`, `print_history`). */
module Layout {
  import opened CInt

  /** `enum size_mode`. */
  datatype SizeMode = Large | Small | Smaller | Tiny

  /** A cell origin on the screen: column `x`, row `y`. */
  datatype Point = Point(x: int, y: int)

  /** The terminal size last laid out for (`watch->prev`). */
  datatype Size = Size(cols: int, lines: int)

  /** Orders the size classes from the smallest tier (0) to the largest (3). */
  function Tier(m: SizeMode): nat {
    match m
    case Tiny => 0
    case Smaller => 1
    case Small => 2
    case Large => 3
  }

  /** The height class `get_height_mode` stores for a terminal of `lines` rows. */
  function HeightClass(lines: int): SizeMode {
    if lines < 8 then Tiny
    else if lines < 14 then Smaller
    else if lines < 21 then Small
    else Large
  }

  /** The bottom margin `get_height_mode` stores beside the height class: the
      number of rows reserved for the history and command panels. */
  function BottomMargin(m: SizeMode): int {
    match m
    case Tiny => 2
    case Smaller => 2
    case Small => 8
    case Large => 15
  }

  /** The width class `get_width_mode` stores for a terminal of `cols` columns. */
  function WidthClass(cols: int): SizeMode {
    if cols < 35 then Tiny
    else if cols < 47 then Smaller
    else if cols < 61 then Small
    else Large
  }

  // The same thresholds as an ordered (bound, class) table read top-down:
  // the first bound above the size wins.

  const HeightThresholds: seq<(int, SizeMode)> := [(8, Tiny), (14, Smaller), (21, Small)]
  const WidthThresholds: seq<(int, SizeMode)> := [(35, Tiny), (47, Smaller), (61, Small)]

  /** Top-down lookup in a threshold table, `otherwise` when no bound is above `v`. */
  function ClassifyBy(table: seq<(int, SizeMode)>, v: int, otherwise: SizeMode): SizeMode
    decreases |table|
  {
    if table == [] then otherwise
    else if v < table[0].0 then table[0].1
    else ClassifyBy(table[1..], v, otherwise)
  }

  /** The classes of a table rise strictly from top to bottom, ending below `otherwise`. */
  predicate TiersAscend(table: seq<(int, SizeMode)>, otherwise: SizeMode) {
    (forall i, j :: 0 <= i < j < |table| ==> Tier(table[i].1) < Tier(table[j].1)) &&
    (forall i :: 0 <= i < |table| ==> Tier(table[i].1) < Tier(otherwise))
  }

  /** Whatever a table lookup returns is no smaller than the table's first class. */
  lemma {:induction false} ClassifyByAtLeastHead(table: seq<(int, SizeMode)>, v: int, otherwise: SizeMode)
    requires table != [] && TiersAscend(table, otherwise)
    ensures Tier(table[0].1) <= Tier(ClassifyBy(table, v, otherwise))
  {
    if v >= table[0].0 && |table| > 1 {
      ClassifyByAtLeastHead(table[1..], v, otherwise);
    }
  }

  /** A top-down lookup over ascending classes is monotone: a larger size never
      yields a smaller class, whatever the bounds. */
  lemma {:induction false} ClassifyByMonotone(table: seq<(int, SizeMode)>, a: int, b: int, otherwise: SizeMode)
    requires TiersAscend(table, otherwise)
    requires a <= b
    ensures Tier(ClassifyBy(table, a, otherwise)) <= Tier(ClassifyBy(table, b, otherwise))
  {
    if table != [] {
      if b < table[0].0 {
      } else if a < table[0].0 {
        ClassifyByAtLeastHead(table, b, otherwise);
      } else {
        ClassifyByMonotone(table[1..], a, b, otherwise);
      }
    }
  }

  /** The nested conditionals of `get_height_mode` agree with the height table. */
  lemma HeightClassIsTableLookup(lines: int)
    ensures HeightClass(lines) == ClassifyBy(HeightThresholds, lines, Large)
  {
  }

  /** The nested conditionals of `get_width_mode` agree with the width table. */
  lemma WidthClassIsTableLookup(cols: int)
    ensures WidthClass(cols) == ClassifyBy(WidthThresholds, cols, Large)
  {
  }

  /** Exactly the documented thresholds, and the bottom margin that goes with each. */
  lemma HeightClassThresholds(lines: int)
    ensures HeightClass(lines) == Tiny <==> lines < 8
    ensures HeightClass(lines) == Smaller <==> 8 <= lines < 14
    ensures HeightClass(lines) == Small <==> 14 <= lines < 21
    ensures HeightClass(lines) == Large <==> 21 <= lines
    ensures BottomMargin(HeightClass(lines)) == (if lines < 14 then 2 else if lines < 21 then 8 else 15)
  {
  }

  lemma WidthClassThresholds(cols: int)
    ensures WidthClass(cols) == Tiny <==> cols < 35
    ensures WidthClass(cols) == Smaller <==> 35 <= cols < 47
    ensures WidthClass(cols) == Small <==> 47 <= cols < 61
    ensures WidthClass(cols) == Large <==> 61 <= cols
  {
  }

  /** More lines never yields a smaller height class, nor a smaller bottom margin. */
  lemma HeightClassMonotone(a: int, b: int)
    requires a <= b
    ensures Tier(HeightClass(a)) <= Tier(HeightClass(b))
    ensures BottomMargin(HeightClass(a)) <= BottomMargin(HeightClass(b))
  {
    HeightClassIsTableLookup(a);
    HeightClassIsTableLookup(b);
    ClassifyByMonotone(HeightThresholds, a, b, Large);
  }

  /** More columns never yields a smaller width class. */
  lemma WidthClassMonotone(a: int, b: int)
    requires a <= b
    ensures Tier(WidthClass(a)) <= Tier(WidthClass(b))
  {
    WidthClassIsTableLookup(a);
    WidthClassIsTableLookup(b);
    ClassifyByMonotone(WidthThresholds, a, b, Large);
  }

  /** `input_clock` draws the big seven-segment clock in these modes and one
      compact text line in all others. */
  predicate BigClock(height: SizeMode, width: SizeMode) {
    (width == Large || width == Small) && height != Tiny
  }

  /** `input_frame` places (and `input_commands_list` draws) the command panel
      only when neither class is Tiny or Smaller. */
  predicate ShowsCommands(height: SizeMode, width: SizeMode) {
    height != Tiny && height != Smaller && width != Tiny && width != Smaller
  }

  /** `input_commands_list` prints the long command descriptions only at Large width. */
  predicate VerboseCommands(width: SizeMode) {
    width == Large
  }

  /** The clock origin (and pause-banner origin) `input_frame` computes: the
      middle column, and the middle of the rows above the bottom margin, two
      rows down. The big clock is drawn from 22 columns left and 3 rows up of
      it, 45 columns wide and 5 rows tall; whenever its modes select it, it
      fits between the top rule (row 0) and the panel rule (row
      `lines - bottom_y`), and inside the screen's columns. */
  function ClockOrigin(lines: nat, cols: nat): (p: Point)
    ensures 2 * p.x <= cols <= 2 * p.x + 1
    ensures HeightClass(lines) != Tiny ==>
              0 < p.y - 3 && p.y + 1 < lines - BottomMargin(HeightClass(lines))
    ensures (WidthClass(cols) == Large || WidthClass(cols) == Small) ==>
              0 <= p.x - 22 && p.x + 23 < cols
  {
    Point(Quot(cols, 2), Quot(lines - BottomMargin(HeightClass(lines)) - 1, 2) + 2)
  }

  /** 80 x 25: both classes Large, 15 reserved rows, big clock, verbose commands. */
  lemma LargeTerminalScenario()
    ensures HeightClass(25) == Large && WidthClass(80) == Large
    ensures BottomMargin(HeightClass(25)) == 15
    ensures BigClock(HeightClass(25), WidthClass(80))
    ensures ShowsCommands(HeightClass(25), WidthClass(80)) && VerboseCommands(WidthClass(80))
    ensures ClockOrigin(25, 80) == Point(40, 6)
  {
  }

  /** 30 x 10: height Smaller, width Tiny, 2 reserved rows, compact clock, no commands. */
  lemma SmallTerminalScenario()
    ensures HeightClass(10) == Smaller && WidthClass(30) == Tiny
    ensures BottomMargin(HeightClass(10)) == 2
    ensures !BigClock(HeightClass(10), WidthClass(30))
    ensures !ShowsCommands(HeightClass(10), WidthClass(30))
  {
  }
}
