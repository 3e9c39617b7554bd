/** The stopwatch state (`struct watch_parameters`) and the operations that
    update it in place: the layout pass, the lap history, one tick of the main
    loop and the key dispatch. */
module StopWatch {
  import opened CInt
  import opened Time
  import opened Layout
  import opened History
  import opened Glyphs

  /** `enum watch_status`. */
  datatype WatchStatus = Paused | Run

  /** What `getch` returned: nothing (`ERR`) or one key. */
  datatype Key = NoKey | Pressed(ch: char)

  predicate IsQuit(k: Key) { k == Pressed('q') || k == Pressed('Q') }
  predicate IsReset(k: Key) { k == Pressed('r') || k == Pressed('R') }
  predicate IsLap(k: Key) { k == Pressed('l') || k == Pressed('L') }
  predicate IsSave(k: Key) { k == Pressed('s') || k == Pressed('S') }
  predicate IsPause(k: Key) { k == Pressed(' ') }

  /** The starting positions `initialise_ncurses` gives the clock and history. */
  const CLOCK_X: int := 10
  const CLOCK_Y: int := 10
  const HISTORY_X: int := 70
  const HISTORY_Y: int := 1

  /** Everything `input_frame` sets, gathered to state what a step leaves alone. */
  datatype Frame = Frame(prev: Size, bottomY: int, heightMode: SizeMode, widthMode: SizeMode,
                         clockAt: Point, pauseAt: Point, promptAt: Point,
                         commandsAt: Point, historyAt: Point)

  /** What `input_clock` draws: the big glyph clock or one compact text line. */
  datatype ClockFace = Big(cells: seq<Cell>) | Compact(x: int, y: int, fields: (int, int, int))

  class Watch {
    var bottomY: int
    var historyAt: Point
    var history: array<TimeSpec>
    var clockAt: Point
    var pauseAt: Point
    var promptAt: Point
    var commandsAt: Point
    var prev: Size
    var heightMode: SizeMode
    var widthMode: SizeMode
    var start: TimeSpec
    var now: TimeSpec
    var state: WatchStatus
    /** `ncurses_main`'s local `prev`: the value the clock was last drawn for. */
    var shown: TimeSpec
    /** The latest monotonic clock reading seen, in nanoseconds. */
    ghost var lastClock: int

    /** The start instant never lies after the latest clock reading, and the
        elapsed time and every lap are normalised and not negative. */
    ghost predicate Valid()
      reads this, history
    {
      && history.Length == HISTORY_MAX
      && Normalized(start) && Normalized(now)
      && Nanos(start) <= lastClock
      && 0 <= Nanos(now)
      && forall i :: 0 <= i < history.Length ==> Normalized(history[i]) && 0 <= Nanos(history[i])
    }

    ghost function GetFrame(): Frame
      reads this
    {
      Frame(prev, bottomY, heightMode, widthMode, clockAt, pauseAt, promptAt, commandsAt, historyAt)
    }

    /** The positions `input_frame` derives for a terminal of `lines` x `cols`;
        the command origin is pinned only when the command panel is shown. */
    ghost predicate LaidOut(lines: nat, cols: nat)
      reads this
    {
      && prev == Size(cols, lines)
      && heightMode == HeightClass(lines)
      && widthMode == WidthClass(cols)
      && bottomY == BottomMargin(heightMode)
      && clockAt == ClockOrigin(lines, cols)
      && pauseAt == clockAt
      && promptAt == Point(0, lines - 1)
      && historyAt == Point(cols - 23, lines - bottomY + 1)
      && (ShowsCommands(heightMode, widthMode) ==> commandsAt.y == lines - bottomY + 1)
    }

    /** `main`'s first clock reading and `initialise_ncurses`: fixed starting
        positions, both classes Large, running, and an all-zero history.
        `commands.y`, `bottom_y` and `times.now` are left unset by the source;
        here they start at zero. */
    constructor (startClock: TimeSpec)
      requires Normalized(startClock)
      ensures Valid() && fresh(history)
      ensures start == startClock && now == TimeSpec(0, 0) && state == Run
      ensures lastClock == Nanos(startClock)
      ensures clockAt == Point(CLOCK_X, CLOCK_Y) && historyAt == Point(HISTORY_X, HISTORY_Y)
      ensures pauseAt == Point(0, 0) && promptAt == Point(0, 0) && prev == Size(0, 0)
      ensures heightMode == Large && widthMode == Large && commandsAt.x == 2
      ensures forall i :: 0 <= i < HISTORY_MAX ==> history[i] == TimeSpec(0, 0)
    {
      start := startClock;
      lastClock := Nanos(startClock);
      now := TimeSpec(0, 0);
      shown := startClock;
      bottomY := 0;
      clockAt := Point(CLOCK_X, CLOCK_Y);
      historyAt := Point(HISTORY_X, HISTORY_Y);
      pauseAt := Point(0, 0);
      promptAt := Point(0, 0);
      prev := Size(0, 0);
      heightMode := Large;
      widthMode := Large;
      state := Run;
      commandsAt := Point(2, 0);
      var time := new TimeSpec[HISTORY_MAX];
      var cnt := 0;
      while cnt < HISTORY_MAX
        invariant 0 <= cnt <= HISTORY_MAX
        invariant forall i :: 0 <= i < cnt ==> time[i] == TimeSpec(0, 0)
      {
        time[cnt] := time[cnt].(nsec := 0);
        time[cnt] := time[cnt].(sec := 0);
        cnt := cnt + 1;
      }
      history := time;
    }

    /** `get_height_mode`. */
    method GetHeightMode(lines: nat)
      modifies this`bottomY, this`heightMode
      ensures heightMode == HeightClass(lines) && bottomY == BottomMargin(heightMode)
    {
      if lines < 8 {
        bottomY := 2;
        heightMode := Tiny;
      } else if lines < 14 {
        bottomY := 2;
        heightMode := Smaller;
      } else if lines < 21 {
        bottomY := 8;
        heightMode := Small;
      } else {
        bottomY := 15;
        heightMode := Large;
      }
    }

    /** `get_width_mode`. */
    method GetWidthMode(cols: nat)
      modifies this`widthMode
      ensures widthMode == WidthClass(cols)
    {
      if cols < 35 {
        widthMode := Tiny;
      } else if cols < 47 {
        widthMode := Smaller;
      } else if cols < 61 {
        widthMode := Small;
      } else {
        widthMode := Large;
      }
    }

    /** The position part of `print_history`: the history panel sits 23
        columns from the right edge, one row below the panel rule. */
    method PrintHistory(lines: nat, cols: nat)
      modifies this`historyAt
      ensures historyAt == Point(cols - 23, lines - bottomY + 1)
    {
      historyAt := Point(cols - 23, lines - bottomY + 1);
    }

    /** `input_frame`: records the size, classifies it and derives every
        origin. The command origin is left as it was when the panel is hidden,
        so re-laying out for the size already laid out changes nothing. */
    method InputFrame(lines: nat, cols: nat)
      modifies this`prev, this`bottomY, this`heightMode, this`widthMode, this`clockAt,
               this`pauseAt, this`promptAt, this`commandsAt, this`historyAt
      ensures LaidOut(lines, cols)
      ensures commandsAt.x == old(commandsAt.x)
      ensures !ShowsCommands(heightMode, widthMode) ==> commandsAt == old(commandsAt)
      ensures old(LaidOut(lines, cols)) ==> GetFrame() == old(GetFrame())
    {
      prev := Size(cols, lines);
      GetHeightMode(lines);
      GetWidthMode(cols);
      var midX := Quot(cols, 2);
      var midY := Quot(lines - bottomY - 1, 2) + 2;
      clockAt := Point(midX, midY);
      pauseAt := Point(midX, midY);
      promptAt := Point(0, lines - 1);
      if heightMode != Tiny && heightMode != Smaller && widthMode != Tiny && widthMode != Smaller {
        commandsAt := commandsAt.(y := lines - bottomY + 1);
      }
      PrintHistory(lines, cols);
    }

    /** `refresh_history`: shifts the laps one place back in a descending loop,
        dropping the oldest, and stores the current elapsed time first. */
    method RefreshHistory()
      requires Valid()
      modifies history
      ensures Valid()
      ensures history[..] == Pushed(old(history[..]), now)
    {
      var i := HISTORY_MAX - 1;
      while i > 0
        invariant 0 <= i <= HISTORY_MAX - 1
        invariant forall k :: i < k < HISTORY_MAX ==> history[k] == old(history[k - 1])
        invariant forall k :: 0 <= k <= i ==> history[k] == old(history[k])
      {
        history[i] := history[i - 1];
        i := i - 1;
      }
      history[0] := now;
    }

    /** The digit extraction of `input_clock` for the current elapsed time: the
        big clock around the clock origin when the modes allow it, else the
        compact line 5 columns left of and 1 row above the origin. */
    method InputClock() returns (face: ClockFace)
      requires Valid()
      ensures face.Big? == BigClock(heightMode, widthMode)
      ensures face.Big? ==> 0 <= now.sec && face.cells == BigClockCells(clockAt.x, clockAt.y, now.sec)
      ensures face.Compact? ==> 0 <= now.sec && face == Compact(clockAt.x - 5, clockAt.y - 1, CompactFields(now.sec))
    {
      NonNegativeSeconds(now);
      if (widthMode == Large || widthMode == Small) && heightMode != Tiny {
        face := Big(BigClockCells(clockAt.x, clockAt.y, now.sec));
      } else {
        face := Compact(clockAt.x - 5, clockAt.y - 1, CompactFields(now.sec));
      }
    }

    /** `ncurses_main`'s set-up before its loop: lay out the current size,
        run, and remember the start as the value last drawn. */
    method Begin(lines: nat, cols: nat)
      requires Valid()
      modifies this
      ensures Valid() && LaidOut(lines, cols)
      ensures state == Run && shown == start
      ensures commandsAt.x == old(commandsAt.x)
      ensures !ShowsCommands(heightMode, widthMode) ==> commandsAt == old(commandsAt)
      ensures start == old(start) && now == old(now) && history == old(history) && lastClock == old(lastClock)
    {
      InputFrame(lines, cols);
      state := Run;
      shown := start;
    }

    /** The first half of one iteration of the main loop, at monotonic instant
        `clock` on a terminal of `lines` x `cols`: re-lay out if the size
        changed; while running, the elapsed time becomes `clock - start` and
        `redraw` says whether its whole seconds changed since the last draw;
        while paused, `start` is re-anchored to `clock - now`, so the frozen
        elapsed time carries over when the watch resumes. */
    method Tick(lines: nat, cols: nat, clock: TimeSpec) returns (redraw: bool)
      requires Valid() && Normalized(clock) && lastClock <= Nanos(clock)
      modifies this
      ensures Valid() && lastClock == Nanos(clock)
      ensures history == old(history) && state == old(state)
      ensures old(prev) != Size(cols, lines) ==>
                LaidOut(lines, cols) && commandsAt.x == old(commandsAt.x) &&
                (!ShowsCommands(heightMode, widthMode) ==> commandsAt == old(commandsAt))
      ensures old(prev) == Size(cols, lines) ==> GetFrame() == old(GetFrame())
      ensures old(state) == Run ==>
                && start == old(start)
                && Nanos(now) == Nanos(clock) - Nanos(start)
                && redraw == (now.sec != old(shown).sec)
                && shown == (if redraw then now else old(shown))
      ensures old(state) == Paused ==>
                && now == old(now) && !redraw && shown == old(shown)
                && Nanos(start) == Nanos(clock) - Nanos(now)
    {
      if prev != Size(cols, lines) {
        InputFrame(lines, cols);
      }
      redraw := false;
      if state == Run {
        now := SubtractTime(clock, start);
        if now.sec != shown.sec {
          redraw := true;
          shown := now;
        }
      } else {
        start := SubtractTime(clock, now);
      }
      lastClock := Nanos(clock);
    }

    /** `ncurses_ui_stop`: dispatches one key; `clock` is the monotonic reading
        a reset takes. Returns true exactly for q or Q. */
    method UiStop(key: Key, clock: TimeSpec) returns (quit: bool)
      requires Valid() && Normalized(clock) && lastClock <= Nanos(clock)
      modifies this, history
      ensures Valid()
      ensures quit <==> IsQuit(key)
      ensures history == old(history) && GetFrame() == old(GetFrame()) && shown == old(shown)
      ensures lastClock == if IsReset(key) then Nanos(clock) else old(lastClock)
      ensures IsLap(key) ==>
                history[..] == Pushed(old(history[..]), old(now)) &&
                state == old(state) && start == old(start) && now == old(now)
      ensures IsReset(key) && old(state) == Run ==>
                history[..] == Pushed(old(history[..]), old(now)) &&
                state == Run && start == clock && now == old(now)
      ensures IsReset(key) && old(state) == Paused ==>
                history[..] == old(history[..]) &&
                state == Paused && start == clock && now == TimeSpec(0, 0)
      ensures IsPause(key) && old(state) == Run ==>
                history[..] == Pushed(old(history[..]), old(now)) &&
                state == Paused && start == old(start) && now == old(now)
      ensures IsPause(key) && old(state) == Paused ==>
                history[..] == old(history[..]) &&
                state == Run && start == old(start) && now == old(now)
      ensures IsSave(key) ==>
                history[..] == old(history[..]) &&
                state == old(state) && start == old(start) && now == old(now)
      ensures !IsReset(key) && !IsLap(key) && !IsPause(key) && !IsSave(key) ==>
                history[..] == old(history[..]) &&
                state == old(state) && start == old(start) && now == old(now)
    {
      quit := false;
      match key
      case NoKey =>
      case Pressed(ch) =>
        if ch == 'q' || ch == 'Q' {
          quit := true;
        } else if ch == 'r' || ch == 'R' {
          if state == Run {
            RefreshHistory();
          }
          start := clock;
          lastClock := Nanos(clock);
          if state == Paused {
            now := now.(sec := 0);
            now := now.(nsec := 0);
          }
        } else if ch == 'l' || ch == 'L' {
          RefreshHistory();
        } else if ch == 's' || ch == 'S' {
          // save_history writes the file; the state is untouched
        } else if ch == ' ' {
          if state == Run {
            RefreshHistory();
            state := Paused;
          } else {
            state := Run;
          }
        }
    }
  }
}
