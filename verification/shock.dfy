/** `ShockStimulus`: a burst of electric pulses sent to a pyboard over a serial
    line. The board is modelled by the list of messages written to it. */
module ShockStimulus {
  import opened Errors
  import opened Geometry
  import opened StimulusState
  import opened Numerics

  // ---------------------------------------------------------------------------
  // The pulse message

  /** The DAC level for an amplitude in mA: 3.5 mA is full scale (255), truncated
      the way `int` truncates a float. */
  function AmpDac(ampMa: real): (r: int)
    ensures 0.0 <= ampMa ==> 0 <= r && r as real <= 255.0 * ampMa / 3.5 < r as real + 1.0
    ensures ampMa < 0.0 ==> r <= 0 && r as real - 1.0 < 255.0 * ampMa / 3.5 <= r as real
    ensures 0.0 <= ampMa <= 3.5 ==> r <= 255
  {
    Trunc(255.0 * ampMa / 3.5)
  }

  /** The message one pulse sends: "shock", the DAC level, and the pulse duration
      in ms zero-filled to three characters. */
  function Message(ampMa: real, durMs: int): (m: string)
    ensures var amp := IntDecimal(AmpDac(ampMa)); var dur := ZFill(IntDecimal(durMs), 3);
            && |m| == 5 + |amp| + |dur| && |amp| >= 1 && |dur| >= 3
            && m[..5] == "shock" && m[5..5 + |amp|] == amp && m[5 + |amp|..] == dur
  {
    var amp := IntDecimal(AmpDac(ampMa));
    var dur := ZFill(IntDecimal(durMs), 3);
    assert |amp| >= 1 && |dur| >= 3;
    "shock" + amp + dur
  }

  /** A duration of 0 to 999 ms renders in at most three digits. */
  lemma ShortDuration(durMs: int)
    requires 0 <= durMs <= 999
    ensures |IntDecimal(durMs)| <= 3
  {
    if durMs >= 10 {
      assert NatDecimal(durMs) == NatDecimal(durMs / 10) + [DigitChar(durMs % 10)];
      if durMs / 10 >= 10 {
        assert NatDecimal(durMs / 10) == NatDecimal(durMs / 100) + [DigitChar(durMs / 10 % 10)];
      }
    }
  }

  /** For a duration of 0 to 999 ms the board can split a message back into the
      DAC level and the duration: the last three characters are the duration and
      everything between "shock" and them is the level. */
  lemma MessageRoundTrip(ampMa: real, durMs: int)
    requires 0 <= durMs <= 999
    ensures var m := Message(ampMa, durMs);
            && ParseInt(m[5..|m| - 3]) == Some(AmpDac(ampMa))
            && ParseInt(m[|m| - 3..]) == Some(durMs)
  {
    var amp := IntDecimal(AmpDac(ampMa));
    var dur := ZFill(IntDecimal(durMs), 3);
    ShortDuration(durMs);
    assert |dur| == 3;
    var m := Message(ampMa, durMs);
    assert m == "shock" + amp + dur;
    assert m[5..|m| - 3] == amp;
    assert m[|m| - 3..] == dur;
    IntDecimalRoundTrip(AmpDac(ampMa));
    ZFillKeepsValue(durMs, 3);
  }

  /** From 1000 ms on, the duration no longer fits its three characters and two
      different pulses send the same message: level 7 for 1000 ms and level 71 for
      0 ms are both "shock71000". */
  lemma LongDurationAmbiguous()
    ensures AmpDac(24.5 / 255.0) == 7 && AmpDac(248.5 / 255.0) == 71
    ensures Message(24.5 / 255.0, 1000) == Message(248.5 / 255.0, 0) == "shock71000"
  {
    AmbiguousLevels();
    AmbiguousDecimals();
    assert Message(24.5 / 255.0, 1000) == "shock" + "7" + "1000";
    assert Message(248.5 / 255.0, 0) == "shock" + "71" + "000";
  }

  lemma AmbiguousLevels()
    ensures AmpDac(24.5 / 255.0) == 7 && AmpDac(248.5 / 255.0) == 71
  {
    assert 255.0 * (24.5 / 255.0) / 3.5 == 7.0;
    assert 255.0 * (248.5 / 255.0) / 3.5 == 71.0;
  }

  lemma AmbiguousDecimals()
    ensures IntDecimal(7) == "7" && IntDecimal(71) == "71" && IntDecimal(1000) == "1000"
    ensures ZFill(IntDecimal(1000), 3) == "1000" && ZFill(IntDecimal(0), 3) == "000"
  {
    assert NatDecimal(71) == NatDecimal(7) + [DigitChar(1)];
    assert NatDecimal(10) == NatDecimal(1) + [DigitChar(0)];
    assert NatDecimal(100) == NatDecimal(10) + [DigitChar(0)];
    assert NatDecimal(1000) == NatDecimal(100) + [DigitChar(0)];
    assert IntDecimal(0) == "0";
    assert ZFill("0", 3) == Zeros(2) + "0" == "000";
  }

  // ---------------------------------------------------------------------------
  // Construction

  /** The attributes of a `ShockStimulus`: those of `Stimulus` it uses, the burst
      parameters, the pause between pulses in ms, the message and the board. */
  datatype Shock = Shock(duration: real, elapsed: real, name: string, burstFreq: real,
                         pulseDurMs: int, pulseN: int, pulseAmp: real, pause: real,
                         mex: string, pyb: Value)

  /** `ShockStimulus(burst_freq, pulse_amp, pulse_n, pulse_dur_ms, pyboard)`. The
      pause between pulses in ms is 1000 / burst_freq - pulse_dur_ms, a
      ZeroDivisionError for a zero frequency; one pulse and the pause after it then
      fill one period of the burst. */
  function NewShock(duration: real, burstFreq: real, pulseAmp: real, pulseN: int,
                    pulseDurMs: int, pyboard: Value): (r: Result<Shock>)
    ensures r.Err? <==> burstFreq == 0.0
    ensures r.Err? ==> r.error == ZeroDivisionError
    ensures r.Ok? ==> Times(r.value.pause + pulseDurMs as real, burstFreq) == 1000.0
    ensures r.Ok? ==> r.value.mex == Message(pulseAmp, pulseDurMs) && r.value.pulseN == pulseN
    ensures r.Ok? ==> r.value.burstFreq == burstFreq && r.value.pulseAmp == pulseAmp
                      && r.value.pulseDurMs == pulseDurMs
    ensures r.Ok? ==> r.value.name == "shock" && r.value.elapsed == 0.0 && r.value.pyb == pyboard
                      && r.value.duration == duration
  {
    if burstFreq == 0.0 then Err(ZeroDivisionError)
    else
      var pause := 1000.0 / burstFreq - pulseDurMs as real;
      DivTimes(1000.0, burstFreq);
      var s := NewStimulus(duration);
      Ok(Shock(duration, Num(s, "elapsed"), "shock", burstFreq, pulseDurMs, pulseN, pulseAmp,
               pause, Message(pulseAmp, pulseDurMs), pyboard))
  }

  // ---------------------------------------------------------------------------
  // start

  /** n copies of message m. */
  function Repeat(m: string, n: nat): (r: seq<string>)
    ensures |r| == n && forall i :: 0 <= i < n ==> r[i] == m
  {
    seq(n, _ => m)
  }

  /** `start()`: the message is written to the board pulse_n times (none for a
      pulse count of zero or less), then the stimulus counts as elapsed. Writing to
      a board that is not an object (None by default) raises AttributeError on the
      first pulse, before elapsed is set. */
  method Start(s: Shock, board: seq<string>) returns (r: Shock, written: seq<string>, outcome: Outcome)
    ensures s.pulseN <= 0 ==> outcome == Pass && written == board && r == s.(elapsed := 1.0)
    ensures s.pulseN > 0 && !s.pyb.Object? ==>
              outcome == Fail(AttributeError("write")) && written == board && r == s
    ensures s.pulseN > 0 && s.pyb.Object? ==>
              outcome == Pass && written == board + Repeat(s.mex, s.pulseN) && r == s.(elapsed := 1.0)
  {
    written := board;
    var i := 0;
    while i < s.pulseN
      invariant 0 <= i <= (if s.pulseN > 0 then s.pulseN else 0)
      invariant written == board + Repeat(s.mex, i)
      invariant i > 0 ==> s.pyb.Object?
    {
      if !s.pyb.Object? {
        return s, written, Fail(AttributeError("write"));
      }
      written := written + [s.mex];
      i := i + 1;
    }
    assert written == board + Repeat(s.mex, if s.pulseN > 0 then s.pulseN else 0);
    return s.(elapsed := 1.0), written, Pass;
  }
}
