/** Callers of the Watch operations that show, from their contracts alone,
    what the loop of `ncurses_main` promises across several steps. */
module Scenarios {
  import opened Time
  import opened Layout
  import opened StopWatch

  /** Laying out twice for the same size gives what one pass gives: laid out
      for the size, `commands.x` kept, and the whole command origin kept when
      the panel is hidden. */
  method RelayoutIsIdempotent(w: Watch, lines: nat, cols: nat)
    modifies w
    ensures w.LaidOut(lines, cols) && w.commandsAt.x == old(w.commandsAt.x)
    ensures !ShowsCommands(HeightClass(lines), WidthClass(cols)) ==> w.commandsAt == old(w.commandsAt)
  {
    w.InputFrame(lines, cols);
    w.InputFrame(lines, cols);
  }

  /** Two running ticks with no key between them: the elapsed time never goes
      backwards, and grows by exactly the time between the two readings. */
  method ElapsedIsMonotone(w: Watch, lines: nat, cols: nat, c1: TimeSpec, c2: TimeSpec)
    returns (ghost e1: int)
    requires w.Valid() && w.state == Run
    requires Normalized(c1) && Normalized(c2)
    requires w.lastClock <= Nanos(c1) <= Nanos(c2)
    modifies w, w.history
    ensures w.Valid() && w.state == Run && w.start == old(w.start)
    ensures e1 == Nanos(c1) - old(Nanos(w.start))
    ensures Nanos(w.now) == e1 + (Nanos(c2) - Nanos(c1)) && e1 <= Nanos(w.now)
  {
    var redraw := w.Tick(lines, cols, c1);
    e1 := Nanos(w.now);
    var quit := w.UiStop(NoKey, c1);
    redraw := w.Tick(lines, cols, c2);
  }

  /** Pause at `k1` after a running tick at `c1`, keep paused through a tick
      at `c2`, resume at `k2` and tick at `c3`: the pause records the frozen
      elapsed time as a lap, and after resuming the elapsed time continues
      from it, having gained only the time since the last paused tick (none
      at all when `c3` is that same instant). */
  method PauseThenResume(w: Watch, lines: nat, cols: nat,
                         c1: TimeSpec, k1: TimeSpec, c2: TimeSpec, k2: TimeSpec, c3: TimeSpec)
    requires w.Valid() && w.state == Run
    requires Normalized(c1) && Normalized(k1) && Normalized(c2) && Normalized(k2) && Normalized(c3)
    requires w.lastClock <= Nanos(c1) <= Nanos(k1) <= Nanos(c2) <= Nanos(k2) <= Nanos(c3)
    modifies w, w.history
    ensures w.Valid() && w.state == Run
    ensures Nanos(w.history[0]) == Nanos(c1) - old(Nanos(w.start))
    ensures Nanos(w.now) == Nanos(w.history[0]) + (Nanos(c3) - Nanos(c2))
  {
    var redraw := w.Tick(lines, cols, c1);
    var quit := w.UiStop(Pressed(' '), k1);
    assert w.state == Paused;
    redraw := w.Tick(lines, cols, c2);
    quit := w.UiStop(Pressed(' '), k2);
    assert w.state == Run;
    redraw := w.Tick(lines, cols, c3);
  }

  /** Running at 90 s elapsed, `r` records 1:30 as a lap and re-anchors the
      start, so a tick at the reset instant shows 0 s. */
  method ResetWhileRunning(w: Watch, lines: nat, cols: nat, c: TimeSpec, k: TimeSpec)
    requires w.Valid() && w.state == Run
    requires Normalized(c) && Normalized(k) && w.lastClock <= Nanos(c) <= Nanos(k)
    requires Nanos(c) - Nanos(w.start) == 90 * NSEC_PER_SEC
    modifies w, w.history
    ensures w.Valid() && w.state == Run
    ensures w.history[0] == TimeSpec(90, 0)
    ensures w.now == TimeSpec(0, 0)
  {
    var redraw := w.Tick(lines, cols, c);
    NormalizedUnique(w.now, TimeSpec(90, 0));
    var quit := w.UiStop(Pressed('r'), k);
    redraw := w.Tick(lines, cols, k);
    NormalizedUnique(w.now, TimeSpec(0, 0));
  }

  /** Paused, `r` sets the frozen time to exactly zero without recording a lap. */
  method ResetWhilePaused(w: Watch, k: TimeSpec)
    requires w.Valid() && w.state == Paused
    requires Normalized(k) && w.lastClock <= Nanos(k)
    modifies w, w.history
    ensures w.Valid() && w.state == Paused && w.now == TimeSpec(0, 0)
    ensures w.history[..] == old(w.history[..])
  {
    var quit := w.UiStop(Pressed('R'), k);
  }
}
