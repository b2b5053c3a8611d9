/**
 * What a run of Play calls does, stated against a reference that follows
 * only the accumulator: the cursor moves once for each call that finds the
 * accumulator at the switch time, and no elapsed time is ever lost.
 */
module Playback {
  import opened Animation
  import Sprites

  /** The total of a run of elapsed times. */
  function Sum(dts: seq<real>): real
  {
    if dts == [] then 0.0 else dts[0] + Sum(dts[1..])
  }

  /** k calls with the same elapsed time x. */
  function Repeat(x: real, k: nat): (r: seq<real>)
    ensures |r| == k
    ensures forall i :: 0 <= i < k ==> r[i] == x
  {
    if k == 0 then [] else [x] + Repeat(x, k - 1)
  }

  /** The playhead after one Play call per elapsed time in dts, in order. */
  function PlayRun(n: nat, p: Playhead, switchTime: real, dts: seq<real>): (q: Playhead)
    requires p.cursor < n
    ensures q.cursor < n
    decreases |dts|
  {
    if dts == [] then p else PlayRun(n, Advance(n, p, switchTime, dts[0]), switchTime, dts[1..])
  }

  /**
   * How many calls of a run, starting with t accumulated, find the
   * accumulator at the switch time. Each call switches at most once.
   */
  function Switches(t: real, switchTime: real, dts: seq<real>): (c: nat)
    ensures c <= |dts|
    decreases |dts|
  {
    if dts == [] then 0
    else if t + dts[0] >= switchTime then 1 + Switches(t + dts[0] - switchTime, switchTime, dts[1..])
    else Switches(t + dts[0], switchTime, dts[1..])
  }

  /** Reducing the left summand modulo n first does not change the sum modulo n. */
  lemma ModAddLeft(a: nat, b: nat, n: nat)
    requires 0 < n
    ensures ((a % n) + b) % n == (a + b) % n
  {
    var q, r := ((a % n) + b) / n, ((a % n) + b) % n;
    assert a + b == (a / n + q) * n + r;
    Sprites.DivModUnique(a + b, n, a / n + q, r);
  }

  /** One more switch takes one more switch time off. */
  lemma MulSucc(k: nat, switchTime: real)
    ensures (k + 1) as real * switchTime == k as real * switchTime + switchTime
  {
  }

  /**
   * The cursor after a run has moved on by the number of switches, modulo
   * the number of frames.
   */
  lemma {:induction false} PlayRunCursor(n: nat, p: Playhead, switchTime: real, dts: seq<real>)
    requires p.cursor < n
    ensures PlayRun(n, p, switchTime, dts).cursor == (p.cursor + Switches(p.time, switchTime, dts)) % n
    decreases |dts|
  {
    if dts == [] {
      Sprites.DivModUnique(p.cursor, n, 0, p.cursor);
    } else {
      var p' := Advance(n, p, switchTime, dts[0]);
      PlayRunCursor(n, p', switchTime, dts[1..]);
      if p.time + dts[0] >= switchTime {
        ModAddLeft(p.cursor + 1, Switches(p'.time, switchTime, dts[1..]), n);
      }
    }
  }

  /**
   * No elapsed time is lost: after a run the accumulator holds the initial
   * time plus all elapsed time, minus one switch time per switch.
   */
  lemma {:induction false} PlayRunTime(n: nat, p: Playhead, switchTime: real, dts: seq<real>)
    requires p.cursor < n
    ensures PlayRun(n, p, switchTime, dts).time ==
      p.time + Sum(dts) - Switches(p.time, switchTime, dts) as real * switchTime
    decreases |dts|
  {
    if dts != [] {
      var p' := Advance(n, p, switchTime, dts[0]);
      PlayRunTime(n, p', switchTime, dts[1..]);
      if p.time + dts[0] >= switchTime {
        MulSucc(Switches(p'.time, switchTime, dts[1..]), switchTime);
      }
    }
  }

  /**
   * A backlog is not dropped: when a long frame left k switch times in the
   * accumulator, the next k calls with no elapsed time each advance one frame.
   */
  lemma {:induction false} BacklogDrains(t: real, switchTime: real, k: nat)
    requires 0.0 < switchTime && k as real * switchTime <= t
    ensures Switches(t, switchTime, Repeat(0.0, k)) == k
    decreases k
  {
    if k > 0 {
      var rest := Repeat(0.0, k);
      assert rest[1..] == Repeat(0.0, k - 1);
      MulSucc(k - 1, switchTime);
      BacklogDrains(t - switchTime, switchTime, k - 1);
    }
  }

  /**
   * Calls whose elapsed time is exactly the switch time, from a non-negative
   * accumulator, each move on one frame and leave the accumulator as it was.
   */
  lemma {:induction false} SteadyRun(n: nat, p: Playhead, switchTime: real, k: nat)
    requires p.cursor < n && 0.0 <= p.time
    ensures PlayRun(n, p, switchTime, Repeat(switchTime, k)) == Playhead((p.cursor + k) % n, p.time)
    decreases k
  {
    if k == 0 {
      Sprites.DivModUnique(p.cursor, n, 0, p.cursor);
    } else {
      var dts := Repeat(switchTime, k);
      assert dts[1..] == Repeat(switchTime, k - 1);
      var p' := Advance(n, p, switchTime, switchTime);
      SteadyRun(n, p', switchTime, k - 1);
      ModAddLeft(p.cursor + 1, k - 1, n);
    }
  }

  /** Moving n places on from a cursor below n comes back to it. */
  lemma WrapAround(c: nat, n: nat)
    requires c < n
    ensures (c + n) % n == c
  {
    Sprites.DivModUnique(c + n, n, 1, c);
  }

  /**
   * Playing an n-frame animation for n calls of exactly one switch time each
   * comes back to the frame it started on, with the same accumulated time.
   */
  lemma SteadyCycle(n: nat, p: Playhead, switchTime: real)
    requires p.cursor < n && 0.0 <= p.time
    ensures PlayRun(n, p, switchTime, Repeat(switchTime, n)) == p
  {
    WrapAround(p.cursor, n);
    SteadyRun(n, p, switchTime, n);
  }

  /**
   * Three frames, the default interval, calls of 0.05, 0.06, 0.09 and 0.11
   * seconds: the frames shown are 0, 1, 2 and then 0 again, with 0.01
   * seconds left in the accumulator.
   */
  lemma ThreeFrameScenario()
    ensures var p0 := Playhead(0, 0.0);
      var p1 := Advance(3, p0, DefaultSwitchTime, 0.05);
      var p2 := Advance(3, p1, DefaultSwitchTime, 0.06);
      var p3 := Advance(3, p2, DefaultSwitchTime, 0.09);
      var p4 := Advance(3, p3, DefaultSwitchTime, 0.11);
      p1.cursor == 0 && p2.cursor == 1 && p3.cursor == 2 && p4 == Playhead(0, 0.01)
  {
  }

  /**
   * A 0.35 second stall on a three-frame animation shows the next frame only
   * and leaves 0.25 seconds accumulated; two further calls with no elapsed
   * time then each move on one more frame.
   */
  lemma StallScenario()
    ensures var p1 := Advance(3, Playhead(0, 0.0), DefaultSwitchTime, 0.35);
      p1 == Playhead(1, 0.25) &&
      PlayRun(3, p1, DefaultSwitchTime, Repeat(0.0, 2)).cursor == 0
  {
    var p1 := Advance(3, Playhead(0, 0.0), DefaultSwitchTime, 0.35);
    BacklogDrains(p1.time, DefaultSwitchTime, 2);
    PlayRunCursor(3, p1, DefaultSwitchTime, Repeat(0.0, 2));
  }
}
