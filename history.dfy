/** The fixed-capacity lap history (`history.time[]`) and the fields
    `save_history` writes for each entry. */
module History {
  import opened Time

  /** `HISTORY_MAX`: the number of laps kept. */
  const HISTORY_MAX: nat := 10

  /** The history after `refresh_history` records `t`: `t` in front, every
      older entry one place further back, the last one dropped. */
  function Pushed(h: seq<TimeSpec>, t: TimeSpec): seq<TimeSpec>
    requires |h| > 0
  {
    [t] + h[..|h| - 1]
  }

  /** The history after recording the snapshots `laps`, oldest first. */
  function Laps(h: seq<TimeSpec>, laps: seq<TimeSpec>): (r: seq<TimeSpec>)
    requires |h| > 0
    ensures |r| == |h|
    decreases |laps|
  {
    if laps == [] then h
    else Pushed(Laps(h, laps[..|laps| - 1]), laps[|laps| - 1])
  }

  /** Recording one lap keeps the capacity, puts the lap first and moves every
      other entry back by one, evicting the last. */
  lemma PushedShifts(h: seq<TimeSpec>, t: TimeSpec)
    requires |h| > 0
    ensures |Pushed(h, t)| == |h| && Pushed(h, t)[0] == t
    ensures forall i :: 1 <= i < |h| ==> Pushed(h, t)[i] == h[i - 1]
  {
  }

  /** After any sequence of laps the history still holds exactly its capacity,
      the recorded laps most recent first, followed by the surviving older
      entries; after at least capacity laps it is the most recent laps alone. */
  lemma {:induction false} LapsKeepMostRecent(h: seq<TimeSpec>, laps: seq<TimeSpec>)
    requires |h| > 0
    ensures |Laps(h, laps)| == |h|
    ensures forall i :: 0 <= i < |h| ==>
              Laps(h, laps)[i] == if i < |laps| then laps[|laps| - 1 - i] else h[i - |laps|]
    decreases |laps|
  {
    if laps != [] {
      var n := |laps|;
      var earlier := laps[..n - 1];
      LapsKeepMostRecent(h, earlier);
      var r := Laps(h, laps);
      forall i | 0 <= i < |h|
        ensures r[i] == if i < n then laps[n - 1 - i] else h[i - n]
      {
        if i > 0 {
          assert r[i] == Laps(h, earlier)[i - 1];
          if i - 1 < n - 1 {
            assert earlier[n - 2 - (i - 1)] == laps[n - 1 - i];
          }
        }
      }
    }
  }

  /** One line of the file `save_history` writes: `%2d\t%04ld\t%02ld\t%03ld`. */
  datatype Row = Row(nb: int, minutes: int, seconds: int, millis: int)

  /** The row for entry `i` holding `t`: its number counted from 1, whole
      minutes, seconds within the minute and milliseconds within the second,
      which together give back `t` to the millisecond. */
  function SaveRow(i: nat, t: TimeSpec): (r: Row)
    requires Normalized(t) && 0 <= t.sec
    ensures r.nb == i + 1
    ensures 0 <= r.minutes && 0 <= r.seconds < 60 && 0 <= r.millis < 1000
    ensures r.minutes * 60 + r.seconds == t.sec
    ensures r.millis * 1000000 <= t.nsec < (r.millis + 1) * 1000000
  {
    Row(i + 1, t.sec / 60, t.sec % 60, t.nsec / 1000000)
  }
}
