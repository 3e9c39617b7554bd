# stop-watch: a Dafny model of the terminal stopwatch core

This project models the core of `src/stop-watch.c`, a terminal stopwatch that
runs on ncurses. The core has four parts:

- **Layout.** The terminal's line and column counts map onto the size classes
  Large, Small, Smaller and Tiny, together with the bottom margin reserved for
  the history and command panels (`get_height_mode`, `get_width_mode`). Every
  widget origin is derived from the size and the classes (`input_frame`,
  `print_history`).
- **Lap history.** It has ten slots, newest first. `refresh_history` shifts the
  array in place and drops the oldest entry. `initialise_ncurses` zeroes it.
- **`timespec` subtraction with a hand-made borrow** (`subtract_time`). The
  clock reading it takes is a parameter.
- **Clock digits and the run/pause machine.** `input_clock` turns elapsed
  seconds into glyph indices, and `input_nb` looks those up in the
  `numbers_image` table. `ncurses_ui_stop` dispatches the keys q, r, l, s and
  space. One iteration of `ncurses_main`'s loop is `Tick` followed by `UiStop`.

Modules, one per file:

- `cint.dfy` (`CInt`): C's truncating `/`.
- `time.dfy` (`Time`): `TimeSpec` and `SubtractTime`.
- `layout.dfy` (`Layout`): size classes, the same thresholds as an ordered
  (bound, class) table read top-down, and clock geometry.
- `glyphs.dfy` (`Glyphs`): the glyph table and digit arithmetic.
- `history.dfy` (`History`): laps and the saved-row fields.
- `watch.dfy` (`StopWatch`): class `Watch`, which stands for
  `struct watch_parameters` and has one imperative method per source function
  that updates it.
- `scenarios.dfy` (`Scenarios`): client methods that infer multi-step
  behaviour from the contracts alone.

Some things become parameters:

- The terminal size `LINES`/`COLS`.
- Each `clock_gettime(CLOCK_MONOTONIC)` reading, as a normalised `TimeSpec`.
  Successive readings never decrease; the ghost field `lastClock` tracks this.
- The key `getch` returned (`NoKey` stands for `ERR`).
- Whether the terminal was resized: `is_term_resized(prev.lines, prev.cols)`
  is modelled as "the size given differs from `prev`".

Facts about the code that the model keeps:

- The history origin is always `(COLS-23, LINES-bottom_y+1)` (`print_history`).
  Outside Large height, `input_history` leaves out the two header rows and
  lists five entries starting on the origin row; at Large height ten entries
  start two rows below it.
- `numbers_image` holds 11 glyphs: the digits 0 to 9 and the colon at index 10.
- `commands.x` is 2 and is set in `initialise_ncurses`. `commands.y`,
  `bottom_y` and `times.now` are never initialised by the source. The model
  starts them at 0. The first running tick overwrites `times.now` before
  anything reads it.

## Model

| member | source | states |
|---|---|---|
| `CInt.Quot` | src/stop-watch.c:388-389 | C division by a positive constant truncates toward zero: the remainder lies in [0, b) for a non-negative dividend and in (-b, 0] for a negative one |
| `Time.SubtractTime` | src/stop-watch.c:120-135 | the result's nanosecond total is exactly clock minus former, and it is normalised whenever both operands are |
| `Time.NormalizedUnique` | src/stop-watch.c:120-135 | a normalised timespec is determined by its nanosecond total, so SubtractTime's result is unique |
| `Time.NonNegativeSeconds` | src/stop-watch.c:120-135 | a normalised difference that is not negative has non-negative seconds |
| `Layout.HeightClassThresholds` | src/stop-watch.c:299-321 | height is Tiny below 8 lines, Smaller below 14, Small below 21 and Large otherwise (each if and only if), with bottom margin 2, 2, 8 or 15 |
| `Layout.WidthClassThresholds` | src/stop-watch.c:323-333 | width is Tiny below 35 columns, Smaller below 47, Small below 61 and Large otherwise (each if and only if) |
| `Layout.HeightClassIsTableLookup` | src/stop-watch.c:299-321 | the nested conditionals equal a top-down lookup in the table (8, Tiny), (14, Smaller), (21, Small), falling back to Large |
| `Layout.WidthClassIsTableLookup` | src/stop-watch.c:323-333 | the nested conditionals equal a top-down lookup in the table (35, Tiny), (47, Smaller), (61, Small), falling back to Large |
| `Layout.ClassifyByAtLeastHead` | src/stop-watch.c:299-333 | a lookup in a table whose classes ascend never returns less than the table's first class |
| `Layout.ClassifyByMonotone` | src/stop-watch.c:299-333 | a top-down lookup over ascending classes is monotone in the size |
| `Layout.HeightClassMonotone` | src/stop-watch.c:299-321 | more lines never gives a smaller height class or a smaller bottom margin |
| `Layout.WidthClassMonotone` | src/stop-watch.c:323-333 | more columns never gives a smaller width class |
| `Layout.ClockOrigin` | src/stop-watch.c:387-395 | the clock/pause origin is the middle column; the 45 x 5 big clock drawn from it stays strictly between the top rule and the panel rule whenever height is not Tiny, and inside the screen's columns whenever width is Small or Large |
| `Layout.LargeTerminalScenario` | src/stop-watch.c:369-411 | 80 x 25 is Large x Large with margin 15, big clock and verbose commands; the clock origin is (40, 6) |
| `Layout.SmallTerminalScenario` | src/stop-watch.c:369-411 | 30 x 10 is Smaller x Tiny with margin 2, compact clock and no command panel |
| `Glyphs.GlyphRow` | src/stop-watch.c:141-149 | for glyph n <= 10 and row i < 5 the index n*5+i lies in the 55-entry table, and the row is 6 columns wide for a digit and 3 for the colon |
| `Glyphs.InputNb` | src/stop-watch.c:141-149 | a glyph is five rows stacked downward from its origin, each as wide as the glyph |
| `Glyphs.ClockGlyphs` | src/stop-watch.c:230-243 | the eight indices are all at most 10, colons sit at positions 2 and 5, every other index is a digit, and the digit pairs give back hours mod 100, minutes within the hour, and seconds within the minute |
| `Glyphs.DigitsOfHours` | src/stop-watch.c:232-235 | the two hour glyphs are the tens and units of the hours mod 100 |
| `Glyphs.DigitsOfMinutes` | src/stop-watch.c:237-239 | the two minute glyphs are the tens and units of the minutes mod 60 |
| `Glyphs.DigitsOfSeconds` | src/stop-watch.c:241-243 | the two second glyphs are the tens and units of the seconds mod 60 |
| `Glyphs.BigClockCells` | src/stop-watch.c:227-243 | eight glyphs on one row, 3 rows above the origin; no glyph overlaps the next; they span from origin-22 to origin+23 |
| `Glyphs.CompactMinutesOverflow` | src/stop-watch.c:249-250 | as written, one hour shows as 0001:60:00, and the fields do not add back up to the elapsed time |
| `Glyphs.CompactFields` | src/stop-watch.c:249-250 | the corrected compact fields have minutes and seconds below 60 and give back the elapsed seconds exactly |
| `History.Laps` | src/stop-watch.c:209-216 | recording laps never changes the history's length |
| `History.PushedShifts` | src/stop-watch.c:209-216 | one lap puts the snapshot at index 0, moves entry i-1 to i, and evicts the last entry |
| `History.LapsKeepMostRecent` | src/stop-watch.c:209-216 | after any sequence of laps, the history holds those laps most recent first, then the surviving older entries; after at least ten laps it holds exactly the ten most recent |
| `History.SaveRow` | src/stop-watch.c:439-444 | a saved row numbers entries from 1, and its minutes, seconds below 60 and milliseconds below 1000 give back the entry to the millisecond |
| `StopWatch.Watch.constructor` | src/stop-watch.c:449-478 | the fixed starting positions, both classes Large, running, and all ten history entries zero after the zeroing loop |
| `StopWatch.Watch.GetHeightMode` | src/stop-watch.c:299-321 | stores the height class of the line count and its bottom margin |
| `StopWatch.Watch.GetWidthMode` | src/stop-watch.c:323-333 | stores the width class of the column count |
| `StopWatch.Watch.PrintHistory` | src/stop-watch.c:364-365 | the history origin is (COLS-23, LINES-bottom_y+1) |
| `StopWatch.Watch.InputFrame` | src/stop-watch.c:369-411 | records prev = (COLS, LINES), the classes and margin, clock and pause at ClockOrigin, prompt at (0, LINES-1) and history at (COLS-23, LINES-bottom_y+1); sets commands.y = LINES-bottom_y+1 only when neither class is Tiny or Smaller, otherwise leaves commands alone; re-laying out for the size already laid out changes nothing |
| `StopWatch.Watch.RefreshHistory` | src/stop-watch.c:209-216 | the new history is the old one pushed with the current elapsed time; the watch invariant is kept |
| `StopWatch.Watch.InputClock` | src/stop-watch.c:225-251 | big clock cells exactly when width is Large or Small and height is not Tiny; otherwise the corrected compact line 5 columns left of and 1 row above the clock origin |
| `StopWatch.Watch.Begin` | src/stop-watch.c:543-547 | lays out the current size (keeping `commands.x`, and all of `commands` when the panel is hidden), runs, and takes the start as the value last drawn; times and history are unchanged |
| `StopWatch.Watch.Tick` | src/stop-watch.c:552-573 | re-lays out exactly when the size changed, otherwise leaves the layout alone; running: elapsed = clock - start, with a redraw exactly when the whole seconds changed; paused: elapsed frozen and start := clock - elapsed |
| `StopWatch.Watch.UiStop` | src/stop-watch.c:480-534 | q/Q quits with no change; l/L records a lap; r/R while running records a lap and re-anchors start; r/R while paused zeroes the elapsed time, stays paused and records nothing; space while running records a lap and pauses; space while paused resumes with no lap; every other key, s/S included, changes nothing |
| `Scenarios.RelayoutIsIdempotent` | src/stop-watch.c:369-411 | two layout passes for one size give what one pass gives: laid out for the size, `commands.x` kept, and the whole command origin kept when the panel is hidden (that a second pass changes nothing is `InputFrame`'s last ensures) |
| `Scenarios.ElapsedIsMonotone` | src/stop-watch.c:557-568 | the first running tick gives elapsed `e1 = c1 - start`; after no key and a second tick, elapsed is `e1 + (c2 - c1)`, so it never decreases, and start is unchanged |
| `Scenarios.PauseThenResume` | src/stop-watch.c:514-573 | pausing records the frozen elapsed time as a lap; after resuming, elapsed continues from it and gains only the time since the last paused tick |
| `Scenarios.ResetWhileRunning` | src/stop-watch.c:491-504 | while running at 90 s, reset records 90 s in history[0], and a tick at the reset instant shows 0 s |
| `Scenarios.ResetWhilePaused` | src/stop-watch.c:491-504 | while paused, reset zeroes the elapsed time exactly, stays paused, and leaves the history alone |

## Left out

- All drawing: `mvprintw`, `clear`, `refresh`, `set_prompt`'s messages and blanking, `print_header`, `draw_horizontal_lines`, `mark_pause`, the command text of `input_commands_list`, the separator column of `print_history`, and the 5-row or 10-row listing of `input_history`. These are rendering side effects. Where the model keeps what would be drawn (`InputNb`, `BigClockCells`, `InputClock`), it is the glyph and position data only.
- `clock_gettime`, `clock_nanosleep`, `is_term_resized` and `getch` are system calls. Their results are parameters. The 1 ms pacing and the unbounded `for (;;)` loop are not modelled; one iteration is `Tick` followed by `UiStop`.
- `save_history`'s file I/O (`fopen`, `fprintf`, the header line). Only the fields of each row are modelled (`SaveRow`). In `UiStop`, s/S therefore changes no modelled state.
- Integer widths: `int`, `long` and `time_t` are unbounded here. The source never comes near their limits, since all values are screen sizes or elapsed times.
- `InputClock` computes the compact line with the corrected `CompactFields`, not the source's fields. See Findings.

## Findings

| source | as written | input that shows it | evidently intended | confidence | as-written member | corrected member |
|---|---|---|---|---|---|---|
| src/stop-watch.c:249-250 | the compact clock `%04d:%02d:%02d` prints `tv_sec / 60` as its minutes field | 3600 s elapsed shows 0001:60:00, and 3700 s shows 0001:61:40 | minutes within the hour, `(tv_sec / 60) % 60`, as the big clock computes at line 237 | not executed; high | `Glyphs.CompactMinutesOverflow` | `Glyphs.CompactFields` |
