/** The two self-moving seamless stimuli: `MovingConstantly`, which drifts by a fixed
    step per frame, and `ClosedLoop1D`, which integrates a velocity made of a default
    drift plus the fish's own estimated velocity.

    `SeamlessStimulus.__init__` is modelled on the attribute dictionary; the two
    subclasses are records of the attributes their `update` reads and writes, with
    the dictionary rebuilt where logging needs it. Positions, velocities and times are
    reals, and the rebuilt dictionary holds them as floats; the int 0 that `__init__`
    stores before the first update is not told apart from 0.0 there. */
module MotionStimuli {
  import opened Errors
  import opened Geometry
  import opened StimulusState

  // ---------------------------------------------------------------------------
  // SeamlessStimulus

  /** `SeamlessStimulus.__init__`. Its own `background` keyword captures the caller's
      background and None is passed on, so whatever background is given the object
      has none; position and angle start at the int 0 and the elapsed time at 0.0.
      `dynamicParameters` is None for a class without `DynamicStimulus` among its
      bases (`MovingConstantly`), which then has no `dynamic_parameters` at all, and
      the list a subclass passes on otherwise (`ClosedLoop1D`). */
  function NewSeamless(duration: real, dynamicParameters: Option<seq<string>>, background: Value): (d: Attrs)
    ensures dynamicParameters.None? ==> "dynamic_parameters" !in d
    ensures dynamicParameters.Some? ==>
              IsDynamic(d) && d["dynamic_parameters"].names == dynamicParameters.value
    ensures "x" in d && "y" in d && "theta" in d && d["x"] == d["y"] == d["theta"] == Int(0)
    ensures "elapsed" in d && d["elapsed"] == Float(0.0)
    ensures "_background" in d && d["_background"] == NoneValue
  {
    var s0 := NewStimulus(duration);
    var s := if dynamicParameters.None? then s0 else WithDynamicParameters(s0, dynamicParameters);
    assert s["elapsed"] == Float(0.0);
    WithBackground(s, NoneValue)
  }

  // ---------------------------------------------------------------------------
  // MovingConstantly

  /** The attributes of a `MovingConstantly`: its position, its velocities in mm/s
      and its shifts in pixels per frame. */
  datatype Drift = Drift(x: real, y: real, xVel: real, yVel: real,
                         xShiftFrame: real, yShiftFrame: real)

  /** `MovingConstantly(x_vel, y_vel, mm_px, monitor_rate)`. The per-frame shifts are
      (velocity / mm_px) / monitor_rate, a ZeroDivisionError when either divisor is
      zero; the position is the one `SeamlessStimulus.__init__` leaves. */
  function NewMovingConstantly(duration: real, background: Value, xVel: real, yVel: real,
                               mmPx: real, monitorRate: real): (r: Result<Drift>)
    ensures r.Err? <==> mmPx == 0.0 || monitorRate == 0.0
    ensures r.Err? ==> r.error == ZeroDivisionError
    ensures r.Ok? ==> r.value.x == 0.0 && r.value.y == 0.0
    ensures r.Ok? ==> Times(Times(r.value.xShiftFrame, monitorRate), mmPx) == xVel
                      && Times(Times(r.value.yShiftFrame, monitorRate), mmPx) == yVel
  {
    if mmPx == 0.0 || monitorRate == 0.0 then Err(ZeroDivisionError)
    else
      var s := NewSeamless(duration, None, background);
      PerFrameShift(xVel, mmPx, monitorRate);
      PerFrameShift(yVel, mmPx, monitorRate);
      Ok(Drift(Num(s, "x"), Num(s, "y"), xVel, yVel,
               (xVel / mmPx) / monitorRate, (yVel / mmPx) / monitorRate))
  }

  /** A shift of (v / mm_px) / rate pixels per frame is v mm per second. */
  lemma PerFrameShift(v: real, mmPx: real, rate: real)
    requires mmPx != 0.0 && rate != 0.0
    ensures Times(Times((v / mmPx) / rate, rate), mmPx) == v
  {
    assert Times((v / mmPx) / rate, rate) == v / mmPx;
  }

  /** `MovingConstantly.update()`: x and y advance by one frame's shift, and
      nothing else changes. */
  function MovingConstantlyUpdate(d: Drift): (r: Drift)
    ensures r.x - d.x == d.xShiftFrame && r.y - d.y == d.yShiftFrame
    ensures r.(x := d.x, y := d.y) == d
  {
    d.(x := d.x + d.xShiftFrame, y := d.y + d.yShiftFrame)
  }

  /** n frames of `MovingConstantly.update()`. */
  function Frames(d: Drift, n: nat): Drift
  {
    if n == 0 then d else MovingConstantlyUpdate(Frames(d, n - 1))
  }

  /** After n frames the stimulus has moved n shifts from where it started, and
      nothing but its position has changed. */
  lemma {:induction false} FramesDrift(d: Drift, n: nat)
    ensures Frames(d, n).x == d.x + Times(n as real, d.xShiftFrame)
    ensures Frames(d, n).y == d.y + Times(n as real, d.yShiftFrame)
    ensures Frames(d, n).(x := d.x, y := d.y) == d
  {
    if n == 0 {
      ZeroTimes(d.xShiftFrame);
      ZeroTimes(d.yShiftFrame);
    } else {
      FramesDrift(d, n - 1);
      TimesSucc((n - 1) as real, d.xShiftFrame);
      TimesSucc((n - 1) as real, d.yShiftFrame);
    }
  }

  /** One second of frames at the monitor rate moves the stimulus by its velocity
      in pixels: (x_vel / mm_px, y_vel / mm_px). */
  lemma DriftPerSecond(duration: real, background: Value, xVel: real, yVel: real,
                       mmPx: real, monitorRate: nat)
    requires mmPx != 0.0 && monitorRate > 0
    ensures var d := NewMovingConstantly(duration, background, xVel, yVel, mmPx, monitorRate as real).value;
            Frames(d, monitorRate).x == xVel / mmPx && Frames(d, monitorRate).y == yVel / mmPx
  {
    var rate := monitorRate as real;
    var d := NewMovingConstantly(duration, background, xVel, yVel, mmPx, rate).value;
    FramesDrift(d, monitorRate);
    OneSecondOfShifts(xVel / mmPx, rate);
    OneSecondOfShifts(yVel / mmPx, rate);
  }

  lemma OneSecondOfShifts(v: real, rate: real)
    requires rate != 0.0
    ensures Times(rate, v / rate) == v
  {
  }

  // ---------------------------------------------------------------------------
  // ClosedLoop1D

  /** The attributes of a `ClosedLoop1D`: the elapsed time (set by the protocol),
      the position, the default and current velocities, the past time and
      position of the last update, and the fish motion estimator. */
  datatype ClosedLoop = ClosedLoop(duration: real, elapsed: real, x: real, y: real, theta: real,
                                   defaultVel: real, vel: real, pastT: real,
                                   pastX: real, pastY: real, pastTheta: real, estimator: Value)

  /** The past time and position are the present ones: the state after `__init__`
      and after every `update`. */
  predicate Settled(c: ClosedLoop)
  {
    c.pastT == c.elapsed && c.pastX == c.x && c.pastY == c.y && c.pastTheta == c.theta
  }

  /** `ClosedLoop1D(default_velocity, fish_motion_estimator)`: it records x and vel,
      starts at rest, and remembers the position `SeamlessStimulus.__init__` left
      as its past one, with its past time at zero. */
  function NewClosedLoop1D(duration: real, background: Value, defaultVelocity: real,
                           estimator: Value): (c: ClosedLoop)
    ensures Settled(c) && c.elapsed == 0.0 && c.vel == 0.0 && c.defaultVel == defaultVelocity
    ensures c.x == 0.0 && c.y == 0.0 && c.theta == 0.0
  {
    var s := NewSeamless(duration, Some(["x", "vel"]), background);
    ClosedLoop(duration, Num(s, "elapsed"), Num(s, "x"), Num(s, "y"), Num(s, "theta"),
               defaultVelocity, 0.0, 0.0, Num(s, "x"), Num(s, "y"), Num(s, "theta"), estimator)
  }

  /** `ClosedLoop1D.update()` given the estimator's current velocity: the velocity
      is the default plus the fish's, x moves by velocity times the time since the
      last update, and the time and x, y, theta are remembered as the past ones. */
  function ClosedLoopUpdate(c: ClosedLoop, fishVelocity: real): (r: ClosedLoop)
    ensures Settled(r)
  {
    var vel := c.defaultVel + fishVelocity;
    var x := c.x + Times(c.elapsed - c.pastT, vel);
    c.(vel := vel, x := x, pastT := c.elapsed, pastX := x, pastY := c.y, pastTheta := c.theta)
  }

  /** One update moves x by the velocity over the time since the last update and
      changes nothing but the velocity, x and the past attributes. */
  lemma ClosedLoopStep(c: ClosedLoop, fishVelocity: real)
    ensures var r := ClosedLoopUpdate(c, fishVelocity);
            && r.vel == c.defaultVel + fishVelocity
            && r.x - c.x == Times(c.elapsed - c.pastT, r.vel)
            && r.(vel := c.vel, x := c.x, pastT := c.pastT, pastX := c.pastX,
                  pastY := c.pastY, pastTheta := c.pastTheta) == c
  {
  }

  /** An update at the time of the last one leaves x where it was, whatever the
      fish does: in particular right after `__init__` and a second update at the
      same elapsed time. */
  lemma SettledHoldsPosition(c: ClosedLoop, fishVelocity: real)
    requires Settled(c)
    ensures ClosedLoopUpdate(c, fishVelocity).x == c.x
  {
    ZeroTimes(c.defaultVel + fishVelocity);
  }

  /** Two updates at times t1 and then t2 move x by the first velocity over
      [past_t, t1] plus the second over [t1, t2]: x integrates the velocity. */
  lemma ClosedLoopIntegrates(c: ClosedLoop, t1: real, v1: real, t2: real, v2: real)
    ensures var r1 := ClosedLoopUpdate(c.(elapsed := t1), v1);
            var r2 := ClosedLoopUpdate(r1.(elapsed := t2), v2);
            r2.x == c.x + Times(t1 - c.pastT, c.defaultVel + v1) + Times(t2 - t1, c.defaultVel + v2)
  {
  }

  /** The attribute dictionary of a closed-loop stimulus, as the `__init__` chain
      lays it out and `update` fills it. */
  function ClosedLoopAttrs(c: ClosedLoop): (d: Attrs)
    ensures IsDynamic(d) && d["dynamic_parameters"] == Names(["x", "vel"])
    ensures "x" in d && d["x"] == Float(c.x) && "vel" in d && d["vel"] == Float(c.vel)
    ensures "elapsed" in d && d["elapsed"] == Float(c.elapsed)
    ensures "_background" in d && d["_background"] == NoneValue
    ensures "_started" in d && d["_started"] == NoneValue
  {
    map["_started" := NoneValue, "elapsed" := Float(c.elapsed), "duration" := Float(c.duration),
        "name" := Text(""), "dynamic_parameters" := Names(["x", "vel"]),
        "x" := Float(c.x), "y" := Float(c.y), "theta" := Float(c.theta), "_background" := NoneValue,
        "default_vel" := Float(c.defaultVel), "fish_motion_estimator" := c.estimator,
        "vel" := Float(c.vel), "past_x" := Float(c.pastX), "past_y" := Float(c.pastY),
        "past_theta" := Float(c.pastTheta), "past_t" := Float(c.pastT)]
  }

  /** A closed-loop stimulus logs its position and its velocity, in that order,
      whatever its class defines. */
  lemma ClosedLoopRecords(c: ClosedLoop, cls: Attrs)
    ensures IsDynamic(ClosedLoopAttrs(c))
    ensures GetDynamicState(ClosedLoopAttrs(c), cls) == [Float(c.x), Float(c.vel)]
  {
    var d := ClosedLoopAttrs(c);
    assert d["dynamic_parameters"] == Names(["x", "vel"]);
    assert d["x"] == Float(c.x) && d["vel"] == Float(c.vel);
  }
}
