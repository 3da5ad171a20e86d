/** What the host's control mechanism guarantees, stated over the functions of
    module `Daq`. */
module DaqProperties {
  import opened Numeric
  import opened Options
  import opened Qdev
  import opened Daq

  // ---------------------------------------------------------------------------
  //  Band classification
  // ---------------------------------------------------------------------------

  /** With the dead band inside the fine band, the three bands partition the
      errors: Dead inside the dead band, Fine inside the fine band but outside
      the dead band, Coarse outside the fine band (NaN included). */
  lemma BandsPartitionErrors(err: Float, cfg: Config)
    requires cfg.finebandDLo <= cfg.deadbandDLo && cfg.deadbandDHi <= cfg.finebandDHi
    ensures Classify(err, cfg) == Dead <==> Within(err, cfg.deadbandDLo, cfg.deadbandDHi)
    ensures Classify(err, cfg) == Fine <==>
      Within(err, cfg.finebandDLo, cfg.finebandDHi) && !Within(err, cfg.deadbandDLo, cfg.deadbandDHi)
    ensures Classify(err, cfg) == Coarse <==> !Within(err, cfg.finebandDLo, cfg.finebandDHi)
  {
  }

  /** The intervals are open: an error exactly on a bound falls to the wider
      band. */
  lemma BoundsFallOutward(cfg: Config)
    requires cfg.finebandDLo < cfg.deadbandDLo <= cfg.deadbandDHi < cfg.finebandDHi
    ensures Classify(Num(cfg.deadbandDHi), cfg) == Fine && Classify(Num(cfg.deadbandDLo), cfg) == Fine
    ensures Classify(Num(cfg.finebandDHi), cfg) == Coarse && Classify(Num(cfg.finebandDLo), cfg) == Coarse
  {
    assert !Within(Num(cfg.finebandDHi), cfg.deadbandDLo, cfg.deadbandDHi);
    assert !Within(Num(cfg.finebandDLo), cfg.deadbandDLo, cfg.deadbandDHi);
  }

  /** With the default configuration the band depends only on the size of the
      error: Dead below 0.5 %RH, Fine from 0.5 up to 2 %RH, Coarse from 2 %RH. */
  lemma DefaultBandsByMagnitude(e: real)
    ensures var size := if e < 0.0 then -e else e;
      && (Classify(Num(e), DefaultConfig()) == Dead <==> size < 0.5)
      && (Classify(Num(e), DefaultConfig()) == Fine <==> 0.5 <= size < 2.0)
      && (Classify(Num(e), DefaultConfig()) == Coarse <==> 2.0 <= size)
  {
  }

  /** A NaN humidity or setpoint makes the error NaN and the band Coarse; in
      automatic mode the decrease profile is then applied, since `humi <
      setpoint` is false. */
  lemma NaNMeansCoarseAndDecrease(c: Control, humi: Float, setpoint: Float, cfg: Config, now: real)
    requires humi.NaN? || setpoint.NaN?
    ensures Classify(Sub(humi, setpoint), cfg) == Coarse
    ensures ControlStep(c, Auto, humi, setpoint, cfg, now).actions == ProfileActions(cfg.actuatorsDecr)
  {
  }

  // ---------------------------------------------------------------------------
  //  One control step
  // ---------------------------------------------------------------------------

  /** In manual mode nothing is requested of the actuators, but the band and
      the previous band are still brought up to date. */
  lemma ManualRequestsNothing(c: Control, humi: Float, setpoint: Float, cfg: Config, now: real)
    ensures var r := ControlStep(c, Manual, humi, setpoint, cfg, now);
      var band := Classify(Sub(humi, setpoint), cfg);
      r.actions == [] && r.outcome == Done && r.ctl == Control(Some(band), Some(band), c.tBurst)
  {
  }

  /** In the coarse band, on every cycle, the increase profile is applied
      when the humidity is below the setpoint, the decrease profile otherwise. */
  lemma CoarseAppliesProfile(c: Control, humi: Float, setpoint: Float, cfg: Config, now: real)
    requires Classify(Sub(humi, setpoint), cfg) == Coarse
    ensures var r := ControlStep(c, Auto, humi, setpoint, cfg, now);
      && r.outcome == Done && r.ctl.tBurst == c.tBurst
      && r.actions == ProfileActions(if Lt(humi, setpoint) then cfg.actuatorsIncr else cfg.actuatorsDecr)
  {
  }

  /** In the dead band every actuator is switched off, on every cycle. */
  lemma DeadSwitchesAllOff(c: Control, humi: Float, setpoint: Float, cfg: Config, now: real)
    requires Classify(Sub(humi, setpoint), cfg) == Dead
    ensures var r := ControlStep(c, Auto, humi, setpoint, cfg, now);
      r.outcome == Done && r.ctl.tBurst == c.tBurst
      && r.actions == [SetValve1(false), SetValve2(false), SetPump(false)]
  {
  }

  /** Entering the fine band from another band restarts the burst timer now
      and switches every actuator off first. */
  lemma EnteringFineRestartsTimer(c: Control, humi: Float, setpoint: Float, cfg: Config, now: real)
    requires Classify(Sub(humi, setpoint), cfg) == Fine
    requires c.prev.Some? && c.prev.value != Fine
    requires cfg.burstUpdatePeriod >= 0.0
    ensures var r := ControlStep(c, Auto, humi, setpoint, cfg, now);
      && r.outcome == Done && r.ctl.tBurst == Some(now)
      && r.actions == [SetValve1(false), SetValve2(false), SetPump(false)]
  {
  }

  /** Staying in the fine band, a burst fires exactly when more than the
      update period has passed since the timer was reset (strictly), in the
      direction of the setpoint, and the timer is then reset; otherwise
      nothing is requested. */
  lemma FineBurstsAfterPeriod(c: Control, humi: Float, setpoint: Float, cfg: Config, now: real, t: real)
    requires Classify(Sub(humi, setpoint), cfg) == Fine
    requires c.prev == Some(Fine) && c.tBurst == Some(t)
    ensures var r := ControlStep(c, Auto, humi, setpoint, cfg, now);
      && r.outcome == Done
      && (if now - t > cfg.burstUpdatePeriod then
            r.actions == [if Lt(humi, setpoint) then BurstIncrRh else BurstDecrRh]
            && r.ctl.tBurst == Some(now)
          else r.actions == [] && r.ctl.tBurst == Some(t))
  {
  }

  /** The cycle raises exactly when, in automatic mode and the fine band, it
      reads a control attribute that no earlier cycle created: the previous
      band, or the burst timer when the previous band was already Fine.
      Nothing has been requested of the actuators then. */
  lemma RaisesOnlyOnMissingAttribute(c: Control, mode: ControlMode, humi: Float, setpoint: Float,
                                     cfg: Config, now: real)
    ensures var r := ControlStep(c, mode, humi, setpoint, cfg, now);
      && r.outcome != Failed
      && (r.outcome == Raised <==>
            mode == Auto && Classify(Sub(humi, setpoint), cfg) == Fine
            && (c.prev.None? || (c.prev == Some(Fine) && c.tBurst.None?)))
      && (r.outcome == Raised ==> r.actions == [])
  {
  }

  /** Starting from a fresh `State`, a manual cycle in the fine band records
      Fine as the previous band without creating the burst timer; a following
      automatic cycle still in the fine band then reads the timer and raises. */
  lemma SwitchingToAutoInsideFineBandRaises(h1: Float, t1: real, h2: Float, t2: real,
                                            setpoint: Float, cfg: Config)
    requires Classify(Sub(h1, setpoint), cfg) == Fine && Classify(Sub(h2, setpoint), cfg) == Fine
    ensures var r1 := ControlStep(Control(None, None, None), Manual, h1, setpoint, cfg, t1);
      && r1.outcome == Done && r1.ctl == Control(Some(Fine), Some(Fine), None)
      && ControlStep(r1.ctl, Auto, h2, setpoint, cfg, t2).outcome == Raised
  {
  }

  /** With a burst timer left over from an earlier automatic fine-band cycle,
      a manual cycle in the fine band followed by an automatic one still in
      it does not raise: no all-off is requested, and a burst fires at once
      when the old timer is more than the update period behind. */
  lemma SwitchingToAutoInsideFineBandKeepsStaleTimer(c: Control, h1: Float, t1: real, h2: Float,
                                                     t2: real, setpoint: Float, cfg: Config, t: real)
    requires c.tBurst == Some(t)
    requires Classify(Sub(h1, setpoint), cfg) == Fine && Classify(Sub(h2, setpoint), cfg) == Fine
    ensures var r1 := ControlStep(c, Manual, h1, setpoint, cfg, t1);
      var r2 := ControlStep(r1.ctl, Auto, h2, setpoint, cfg, t2);
      && r2.outcome == Done
      && r2.actions == if t2 - t > cfg.burstUpdatePeriod
                       then [if Lt(h2, setpoint) then BurstIncrRh else BurstDecrRh]
                       else []
  {
    var r1 := ControlStep(c, Manual, h1, setpoint, cfg, t1);
    FineBurstsAfterPeriod(r1.ctl, h2, setpoint, cfg, t2, t);
  }

  // ---------------------------------------------------------------------------
  //  Several control steps
  // ---------------------------------------------------------------------------

  /** Control steps in automatic mode at successive (humidity, time) inputs,
      up to the first that does not complete. */
  function RunAuto(c: Control, inputs: seq<(Float, real)>, setpoint: Float, cfg: Config): (r: (Control, seq<Action>))
    decreases |inputs|
  {
    if inputs == [] then (c, [])
    else
      var r := ControlStep(c, Auto, inputs[0].0, setpoint, cfg, inputs[0].1);
      if r.outcome != Done then (r.ctl, r.actions)
      else
        var rest := RunAuto(r.ctl, inputs[1..], setpoint, cfg);
        (rest.0, r.actions + rest.1)
  }

  /** Between bursts nothing is requested: while the humidity stays in the
      fine band and no more than the update period has passed since the timer
      was reset at `t0`, no cycle requests anything and the timer keeps `t0`. */
  lemma {:induction false} QuietWithinPeriod(c: Control, inputs: seq<(Float, real)>, setpoint: Float,
                                             cfg: Config, t0: real)
    requires c.prev == Some(Fine) && c.tBurst == Some(t0)
    requires forall i :: 0 <= i < |inputs| ==>
      Classify(Sub(inputs[i].0, setpoint), cfg) == Fine && inputs[i].1 - t0 <= cfg.burstUpdatePeriod
    ensures RunAuto(c, inputs, setpoint, cfg).1 == []
    ensures RunAuto(c, inputs, setpoint, cfg).0.tBurst == Some(t0)
    ensures RunAuto(c, inputs, setpoint, cfg).0.prev == Some(Fine)
    decreases |inputs|
  {
    if inputs != [] {
      var r := ControlStep(c, Auto, inputs[0].0, setpoint, cfg, inputs[0].1);
      FineBurstsAfterPeriod(c, inputs[0].0, setpoint, cfg, inputs[0].1, t0);
      assert r.outcome == Done && r.actions == [] && r.ctl.tBurst == Some(t0);
      QuietWithinPeriod(r.ctl, inputs[1..], setpoint, cfg, t0);
    }
  }

  /** Two bursts in a row, while staying in the fine band, are more than the
      update period apart. */
  lemma BurstsAreSpaced(c: Control, h1: Float, t1: real, h2: Float, t2: real, setpoint: Float, cfg: Config)
    requires c.prev.Some?
    requires Classify(Sub(h1, setpoint), cfg) == Fine && Classify(Sub(h2, setpoint), cfg) == Fine
    requires var r1 := ControlStep(c, Auto, h1, setpoint, cfg, t1);
      r1.outcome == Done && |r1.actions| > 0 && r1.actions[|r1.actions| - 1] in {BurstIncrRh, BurstDecrRh}
    requires var r1 := ControlStep(c, Auto, h1, setpoint, cfg, t1);
      ControlStep(r1.ctl, Auto, h2, setpoint, cfg, t2).actions != []
    ensures t2 - t1 > cfg.burstUpdatePeriod
  {
    var r1 := ControlStep(c, Auto, h1, setpoint, cfg, t1);
    assert r1.ctl.prev == Some(Fine) && r1.ctl.tBurst == Some(t1);
    FineBurstsAfterPeriod(r1.ctl, h2, setpoint, cfg, t2, t1);
  }
}
