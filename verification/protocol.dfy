/** The stimulus schedule of the self-calibrating closed-loop grating protocol: a
    table of times and base velocities, built as five blocks of rest, a grating
    moving backwards at the grating velocity for the grating duration, and rest
    again. The closed-loop stimulus reads the velocity off this table by linear
    interpolation. */
module ClosedLoopProtocol {
  import opened Errors
  import opened Geometry
  import opened Interpolation

  /** The protocol's parameters, as `ClosedLoop1DProt.__init__` fixes them. */
  datatype Protocol = Protocol(interStimPause: real, gratingVel: real, gratingDuration: real,
                               gratingCycle: real)

  /** `ClosedLoop1DProt()`: a pause of 1 s, a grating at 10 mm/s for 5 s, with a
      10 mm cycle. */
  function NewProtocol(): (p: Protocol)
    ensures p.interStimPause == 1.0 && p.gratingVel == 10.0 && p.gratingDuration == 5.0
    ensures p.gratingCycle == 10.0
  {
    Protocol(1.0, 10.0, 5.0, 10.0)
  }

  /** The number of grating blocks in the table. */
  const Blocks: nat := 5

  /** One block's times relative to the end of the previous one: rest for p, the
      grating for d, rest for p, with the velocity steps made by repeated times. */
  function TimeBase(p: real, d: real): seq<real>
  {
    [0.0, p, p, p + d, p + d, 2.0 * p + d]
  }

  /** One block's velocities: still, then backwards at v, then still. */
  function VelBase(v: real): seq<real>
  {
    [0.0, 0.0, -v, -v, 0.0, 0.0]
  }

  /** numpy's `array + scalar`: every entry shifted by c. */
  function Shift(s: seq<real>, c: real): (r: seq<real>)
    ensures |r| == |s| && forall i :: 0 <= i < |s| ==> r[i] == s[i] + c
  {
    seq(|s|, i requires 0 <= i < |s| => s[i] + c)
  }

  /** The time column after n blocks: `t = [0]`, then each block is the base times
      shifted by the last time so far. */
  function TimeColumn(p: real, d: real, n: nat): (t: seq<real>)
    ensures |t| == 1 + 6 * n
  {
    if n == 0 then [0.0]
    else
      var t := TimeColumn(p, d, n - 1);
      t + Shift(TimeBase(p, d), t[|t| - 1])
  }

  /** The velocity column after n blocks: `vel = [0]`, then the base velocities
      once per block. */
  function VelColumn(v: real, n: nat): (vel: seq<real>)
    ensures |vel| == 1 + 6 * n
  {
    if n == 0 then [0.0] else VelColumn(v, n - 1) + VelBase(v)
  }

  /** `get_stim_sequence`'s table: p is half the pause, v the grating velocity and
      d the grating duration; the loop extends both columns once per block. */
  method StimSequence(proto: Protocol) returns (t: seq<real>, vel: seq<real>)
    ensures t == TimeColumn(proto.interStimPause / 2.0, proto.gratingDuration, Blocks)
    ensures vel == VelColumn(proto.gratingVel, Blocks)
  {
    var p := proto.interStimPause / 2.0;
    var v := proto.gratingVel;
    var d := proto.gratingDuration;
    var tBase := TimeBase(p, d);
    var velBase := VelBase(v);
    t, vel := [0.0], [0.0];
    for i := 0 to Blocks
      invariant t == TimeColumn(p, d, i) && vel == VelColumn(v, i)
    {
      t := t + Shift(tBase, t[|t| - 1]);
      vel := vel + velBase;
    }
  }

  // ---------------------------------------------------------------------------
  // Shape of the table

  /** Block k of a column: the six entries after position 6k. */
  function Block(s: seq<real>, k: nat): seq<real>
    requires 6 * k + 7 <= |s|
  {
    s[6 * k + 1..6 * k + 7]
  }

  /** Building more blocks only appends: the table after m blocks begins the table
      after n >= m blocks. */
  lemma {:induction false} ColumnsGrow(p: real, d: real, v: real, m: nat, n: nat)
    requires m <= n
    ensures TimeColumn(p, d, m) <= TimeColumn(p, d, n)
    ensures VelColumn(v, m) <= VelColumn(v, n)
    decreases n
  {
    if m < n {
      ColumnsGrow(p, d, v, m, n - 1);
    }
  }

  /** Every block of the time column is the base times shifted by the time before
      it, so each block starts where the previous one ended; every block of the
      velocity column is the base velocities. */
  lemma {:induction false} BlocksAreShiftedBase(p: real, d: real, v: real, n: nat, k: nat)
    requires k < n
    ensures var t := TimeColumn(p, d, n);
            Block(t, k) == Shift(TimeBase(p, d), t[6 * k]) && t[6 * k + 1] == t[6 * k]
    ensures Block(VelColumn(v, n), k) == VelBase(v)
  {
    ColumnsGrow(p, d, v, k + 1, n);
    var t, tk := TimeColumn(p, d, n), TimeColumn(p, d, k + 1);
    assert Block(t, k) == Block(tk, k) && t[6 * k] == tk[6 * k];
    assert Block(VelColumn(v, n), k) == Block(VelColumn(v, k + 1), k);
  }

  /** The last time of the table after n blocks is n block lengths, n * (2p + d). */
  lemma {:induction false} LastTime(p: real, d: real, n: nat)
    ensures var t := TimeColumn(p, d, n); t[|t| - 1] == Times(n as real, 2.0 * p + d)
  {
    if n == 0 {
      ZeroTimes(2.0 * p + d);
    } else {
      LastTime(p, d, n - 1);
      TimesSucc((n - 1) as real, 2.0 * p + d);
    }
  }

  /** With non-negative pause and duration the times never decrease. */
  lemma {:induction false} TimesNonDecreasing(p: real, d: real, n: nat)
    requires 0.0 <= p && 0.0 <= d
    ensures NonDecreasing(TimeColumn(p, d, n))
  {
    if n > 0 {
      TimesNonDecreasing(p, d, n - 1);
      var t := TimeColumn(p, d, n - 1);
      var b := Shift(TimeBase(p, d), t[|t| - 1]);
      var u := t + b;
      assert NonDecreasing(b);
      forall i, j | 0 <= i <= j < |u| ensures u[i] <= u[j] {
        if j < |t| {
          assert u[i] == t[i] && u[j] == t[j];
        } else if i < |t| {
          assert u[i] == t[i] <= t[|t| - 1] <= b[0] <= b[j - |t|] == u[j];
        } else {
          assert u[i] == b[i - |t|] && u[j] == b[j - |t|];
        }
      }
    }
  }

  /** Every velocity in the table is 0 or -v. */
  lemma {:induction false} VelocitiesAreStillOrBackwards(v: real, n: nat)
    ensures forall i :: 0 <= i < |VelColumn(v, n)| ==> VelColumn(v, n)[i] in {0.0, -v}
  {
    if n > 0 {
      VelocitiesAreStillOrBackwards(v, n - 1);
      var vel, base := VelColumn(v, n - 1), VelBase(v);
      assert VelColumn(v, n) == vel + base;
      assert forall i :: 0 <= i < |base| ==> base[i] in {0.0, -v};
    }
  }

  /** The velocity changes only between two entries with the same time, so
      interpolating the table gives a step function. */
  predicate Steps(t: seq<real>, vel: seq<real>)
    requires |t| == |vel|
  {
    forall i :: 0 < i < |t| && vel[i] != vel[i - 1] ==> t[i] == t[i - 1]
  }

  lemma {:induction false} VelocityStepsAtRepeatedTimes(p: real, d: real, v: real, n: nat)
    ensures Steps(TimeColumn(p, d, n), VelColumn(v, n))
  {
    if n > 0 {
      VelocityStepsAtRepeatedTimes(p, d, v, n - 1);
      var t, vel := TimeColumn(p, d, n - 1), VelColumn(v, n - 1);
      var tb, vb := Shift(TimeBase(p, d), t[|t| - 1]), VelBase(v);
      var t', vel' := t + tb, vel + vb;
      assert vel[|vel| - 1] == 0.0 by { LastVelocityStill(v, n - 1); }
      forall i | 0 < i < |t'| && vel'[i] != vel'[i - 1] ensures t'[i] == t'[i - 1] {
        if i < |t| {
          assert t'[i] == t[i] && t'[i - 1] == t[i - 1] && vel'[i] == vel[i] && vel'[i - 1] == vel[i - 1];
        } else if i > |t| {
          assert vel'[i] == vb[i - |t|] && vel'[i - 1] == vb[i - 1 - |t|];
          assert t'[i] == tb[i - |t|] && t'[i - 1] == tb[i - 1 - |t|];
        }
      }
    }
  }

  /** The table starts and ends at rest. */
  lemma LastVelocityStill(v: real, n: nat)
    ensures var vel := VelColumn(v, n); vel[|vel| - 1] == 0.0
  {
  }

  // ---------------------------------------------------------------------------
  // Reading the table

  /** Interpolating a step table at any time gives one of its values, never a
      value on a ramp between two of them. */
  lemma InterpolatedStepIsEntry(x: real, t: seq<real>, vel: seq<real>)
    requires 0 < |t| == |vel| && Steps(t, vel)
    ensures Interp(x, t, vel).Ok? && Interp(x, t, vel).value in vel
  {
    var r := Interp(x, t, vel);
    if t[|t| - 1] < x {
      assert r.value == vel[|vel| - 1];
    } else if x < t[0] {
      assert r.value == vel[0];
    } else {
      var j := LastAtMost(t, x);
      if j < |t| - 1 && t[j] != x {
        assert t[j] < t[j + 1];
        assert vel[j + 1] == vel[j];
        var slope := (vel[j + 1] - vel[j]) / (t[j + 1] - t[j]);
        assert slope == 0.0;
        ZeroTimes(x - t[j]);
        assert r.value == Times(slope, x - t[j]) + vel[j];
      }
      assert r.value == vel[j];
    }
  }

  /** Interpolating the protocol's table at any time gives 0 or -v: the base
      velocity is a step function of time. */
  lemma InterpolatedVelocityIsStep(x: real, p: real, d: real, v: real, n: nat)
    ensures var r := Interp(x, TimeColumn(p, d, n), VelColumn(v, n));
            r.Ok? && r.value in {0.0, -v}
  {
    var t, vel := TimeColumn(p, d, n), VelColumn(v, n);
    VelocitiesAreStillOrBackwards(v, n);
    VelocityStepsAtRepeatedTimes(p, d, v, n);
    InterpolatedStepIsEntry(x, t, vel);
  }

  /** The protocol's own table: 31 entries, 0.5 s rests, ending at 30 s, with the
      grating moving backwards at 10 mm/s. */
  lemma DefaultTable()
    ensures var proto := NewProtocol();
            var p := proto.interStimPause / 2.0;
            var t, vel := TimeColumn(p, proto.gratingDuration, Blocks), VelColumn(proto.gratingVel, Blocks);
            && p == 0.5 && |t| == |vel| == 31 && t[30] == 30.0
            && forall i :: 0 <= i < 31 ==> vel[i] in {0.0, -10.0}
  {
    LastTime(0.5, 5.0, Blocks);
    VelocitiesAreStillOrBackwards(10.0, Blocks);
  }
}
