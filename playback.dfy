/**
 * The playback scheduler's timeline arithmetic (hooks/useMultimodalLive.ts,
 * the audio step of `onmessage`): each decoded fragment starts at
 * `max(nextStartTime, ctx.currentTime)` and pushes the cursor on by its
 * duration. Times are seconds on the output device's clock.
 */
module Playback {

  /** A non-negative time or duration in seconds (`ctx.currentTime`, `AudioBuffer.duration`). */
  type Seconds = r: real | 0.0 <= r

  /** `Math.max(cursor, now)`: where the next fragment begins. */
  function StartTime(cursor: Seconds, now: Seconds): (s: Seconds)
    ensures s >= cursor && s >= now
    ensures s == cursor || s == now
  {
    if cursor >= now then cursor else now
  }

  /** A synthesized-audio fragment: the device time at which it arrives and its length. */
  datatype Fragment = Fragment(arrival: Seconds, duration: Seconds)

  /** The cursor after scheduling `fs` one after the other, starting from `cursor`. */
  function FinalCursor(cursor: Seconds, fs: seq<Fragment>): Seconds
    decreases |fs|
  {
    if fs == [] then cursor
    else FinalCursor(StartTime(cursor, fs[0].arrival) + fs[0].duration, fs[1..])
  }

  /** The start time of each fragment of `fs`, in arrival order. */
  function Starts(cursor: Seconds, fs: seq<Fragment>): (r: seq<Seconds>)
    ensures |r| == |fs|
    decreases |fs|
  {
    if fs == [] then []
    else
      var s := StartTime(cursor, fs[0].arrival);
      [s] + Starts(s + fs[0].duration, fs[1..])
  }

  /** Sum of the durations of `fs`. */
  function TotalDuration(fs: seq<Fragment>): Seconds
    decreases |fs|
  {
    if fs == [] then 0.0 else fs[0].duration + TotalDuration(fs[1..])
  }

  /**
   * Fragments never overlap and never start before they arrive or before the
   * cursor: each one starts no earlier than the previous one ends, and the
   * final cursor lies at or after the end of the last one.
   */
  lemma {:induction false} NoOverlap(cursor: Seconds, fs: seq<Fragment>)
    requires fs != []
    ensures var st := Starts(cursor, fs);
      && st[0] >= cursor
      && (forall i :: 0 <= i < |fs| ==> st[i] >= fs[i].arrival)
      && (forall i :: 0 <= i < |fs| - 1 ==> st[i] + fs[i].duration <= st[i + 1])
      && FinalCursor(cursor, fs) == st[|fs| - 1] + fs[|fs| - 1].duration
    decreases |fs|
  {
    var s := StartTime(cursor, fs[0].arrival);
    var c := s + fs[0].duration;
    var st := Starts(cursor, fs);
    assert st == [s] + Starts(c, fs[1..]);
    if |fs| > 1 {
      NoOverlap(c, fs[1..]);
      var rest := Starts(c, fs[1..]);
      forall i | 0 <= i < |fs| ensures st[i] >= fs[i].arrival {
        if i > 0 { assert st[i] == rest[i - 1] && fs[i] == fs[1..][i - 1]; }
      }
      forall i | 0 <= i < |fs| - 1 ensures st[i] + fs[i].duration <= st[i + 1] {
        if i > 0 { assert st[i] == rest[i - 1] && st[i + 1] == rest[i] && fs[i] == fs[1..][i - 1]; }
      }
    }
  }

  /** The cursor never moves backwards while fragments are scheduled. */
  lemma {:induction false} CursorMonotone(cursor: Seconds, fs: seq<Fragment>)
    ensures FinalCursor(cursor, fs) >= cursor
    ensures FinalCursor(cursor, fs) >= cursor + TotalDuration(fs)
    decreases |fs|
  {
    if fs != [] {
      var c := StartTime(cursor, fs[0].arrival) + fs[0].duration;
      CursorMonotone(c, fs[1..]);
    }
  }

  /**
   * Fragments arriving faster than they play (each one arrives no later than
   * the previous ones have finished) play back to back: the i-th one starts
   * exactly when the ones before it have played, counted from the first
   * start, and the cursor ends at that start plus the total duration.
   */
  predicate ArrivesInTime(start: Seconds, fs: seq<Fragment>) {
    forall i :: 0 <= i < |fs| ==> fs[i].arrival <= start + TotalDuration(fs[..i])
  }

  lemma {:induction false} BackToBack(start: Seconds, fs: seq<Fragment>)
    requires ArrivesInTime(start, fs)
    ensures forall i :: 0 <= i < |fs| ==> Starts(start, fs)[i] == start + TotalDuration(fs[..i])
    ensures FinalCursor(start, fs) == start + TotalDuration(fs)
    decreases |fs|
  {
    if fs != [] {
      assert fs[..0] == [];
      assert fs[0].arrival <= start;
      var c := start + fs[0].duration;
      forall i | 0 <= i < |fs| - 1
        ensures fs[1..][i].arrival <= c + TotalDuration(fs[1..][..i])
      {
        assert fs[..i + 1] == [fs[0]] + fs[1..][..i];
        assert fs[..i + 1][1..] == fs[1..][..i];
      }
      BackToBack(c, fs[1..]);
      forall i | 0 <= i < |fs| ensures Starts(start, fs)[i] == start + TotalDuration(fs[..i]) {
        if i > 0 {
          assert fs[..i][1..] == fs[1..][..i - 1];
        }
      }
    }
  }

  /**
   * The two-fragment example: fragments of 1.0 s and 1.5 s, the second
   * arriving 50 ms after the first, on an idle device at time `t0`, start at
   * `t0` and `t0 + 1.0` and leave the cursor at `t0 + 2.5`.
   */
  lemma TwoFragments(t0: Seconds)
    ensures var fs := [Fragment(t0, 1.0), Fragment(t0 + 0.05, 1.5)];
      Starts(t0, fs) == [t0, t0 + 1.0] && FinalCursor(t0, fs) == t0 + 2.5
  {
    var fs := [Fragment(t0, 1.0), Fragment(t0 + 0.05, 1.5)];
    assert fs[..0] == [] && fs[..1] == [fs[0]];
    assert TotalDuration(fs[1..]) == 1.5;
    BackToBack(t0, fs);
  }

  /**
   * After a barge-in the cursor is 0, so the next fragment starts at the
   * device's current time rather than at a stale future cursor value.
   */
  lemma StartAfterReset(now: Seconds)
    ensures StartTime(0.0, now) == now
  {
  }
}
