/** The orientation of the field: pitch and yaw advanced once per frame by a
    fixed angular rate times the elapsed time, with the elapsed time capped so
    a stalled tab does not make the field jump. */
module Orientation {
  import opened RealMath

  /** Pitch (`rotX`), yaw (`rotY`), both in radians, and the timestamp of the
      previous frame (`last`), in milliseconds. */
  datatype Clock = Clock(pitch: real, yaw: real, last: real)

  const InitialPitch: real := -0.2
  const InitialYaw: real := 0.4
  const PitchRate: real := 0.0002
  const YawRate: real := 0.0005
  /** Longest step, in milliseconds, one frame may advance the angles by. */
  const MaxStep: real := 32.0

  /** The clock when the effect starts: the oblique initial view, and
      `last` set to the `performance.now()` reading `now`. */
  function Start(now: real): (c: Clock)
    ensures c.pitch == InitialPitch && c.yaw == InitialYaw
    ensures Tied(c) && c.last == now
  {
    Clock(InitialPitch, InitialYaw, now)
  }

  /** `Math.min(32, t - last)`: the milliseconds a frame at time t accounts for. */
  function Elapsed(c: Clock, t: real): (dt: real)
    ensures dt <= MaxStep && dt <= t - c.last
    ensures dt == MaxStep || dt == t - c.last
  {
    Min(MaxStep, t - c.last)
  }

  /** One frame's update at timestamp t. There is no lower bound on the
      elapsed time: a timestamp earlier than `last` turns the field back. */
  function Advance(c: Clock, t: real): (c': Clock)
    ensures c'.last == t
    ensures c'.yaw - c.yaw <= YawRate * MaxStep && c'.pitch - c.pitch <= PitchRate * MaxStep
    ensures c'.yaw - c.yaw <= YawRate * (t - c.last) && c'.pitch - c.pitch <= PitchRate * (t - c.last)
    ensures t - c.last <= MaxStep ==>
              c'.yaw - c.yaw == YawRate * (t - c.last) && c'.pitch - c.pitch == PitchRate * (t - c.last)
    ensures t - c.last >= MaxStep ==>
              c'.yaw - c.yaw == YawRate * MaxStep && c'.pitch - c.pitch == PitchRate * MaxStep
    ensures t >= c.last <==> c'.yaw >= c.yaw
    ensures t >= c.last <==> c'.pitch >= c.pitch
  {
    var dt := Elapsed(c, t);
    Clock(c.pitch + PitchRate * dt, c.yaw + YawRate * dt, t)
  }

  /** The clock after one frame at each timestamp of ts, in order. */
  function Run(c: Clock, ts: seq<real>): Clock
    decreases |ts|
  {
    if |ts| == 0 then c else Run(Advance(c, ts[0]), ts[1..])
  }

  /** The yaw has turned 5/2 times as far as the pitch since the start. */
  predicate Tied(c: Clock) {
    (c.yaw - InitialYaw) * PitchRate == (c.pitch - InitialPitch) * YawRate
  }

  /** The fixed ratio of the two rates holds at the start and after any
      sequence of frames: the two angles never drift apart. */
  lemma {:induction false} RunKeepsTied(c: Clock, ts: seq<real>)
    requires Tied(c)
    ensures Tied(Run(c, ts))
    decreases |ts|
  {
    if |ts| > 0 {
      RunKeepsTied(Advance(c, ts[0]), ts[1..]);
    }
  }

  /** Over any run of frames the angles advance by no more than the rate
      times the wall-clock time elapsed, nor by more than 32 ms per frame,
      and `last` ends at the final timestamp. */
  lemma {:induction false} RunBounded(c: Clock, ts: seq<real>)
    requires |ts| > 0
    ensures Run(c, ts).last == ts[|ts| - 1]
    ensures Run(c, ts).yaw - c.yaw <= YawRate * (ts[|ts| - 1] - c.last)
    ensures Run(c, ts).pitch - c.pitch <= PitchRate * (ts[|ts| - 1] - c.last)
    ensures Run(c, ts).yaw - c.yaw <= YawRate * MaxStep * |ts| as real
    ensures Run(c, ts).pitch - c.pitch <= PitchRate * MaxStep * |ts| as real
    decreases |ts|
  {
    var c1 := Advance(c, ts[0]);
    if |ts| > 1 {
      RunBounded(c1, ts[1..]);
      assert ts[1..][|ts| - 2] == ts[|ts| - 1];
    }
  }

  /** Non-decreasing timestamps. */
  predicate Monotone(c: Clock, ts: seq<real>) {
    && (|ts| > 0 ==> c.last <= ts[0])
    && forall k :: 0 < k < |ts| ==> ts[k - 1] <= ts[k]
  }

  /** With timestamps that never go back, neither angle ever decreases. */
  lemma {:induction false} RunMonotone(c: Clock, ts: seq<real>)
    requires Monotone(c, ts)
    ensures Run(c, ts).yaw >= c.yaw && Run(c, ts).pitch >= c.pitch
    decreases |ts|
  {
    if |ts| > 0 {
      var c1 := Advance(c, ts[0]);
      assert Monotone(c1, ts[1..]) by {
        forall k | 0 < k < |ts[1..]|
          ensures ts[1..][k - 1] <= ts[1..][k]
        {
          assert ts[1..][k - 1] == ts[k] && ts[1..][k] == ts[k + 1];
        }
      }
      RunMonotone(c1, ts[1..]);
    }
  }
}
