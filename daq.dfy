/** The host's data-acquisition function (`DAQ_function` in src_python/main.py),
    run once per acquisition interval: it decodes the firmware's reply into the
    `State` record, classifies the humidity error into a control band and, in
    automatic mode, requests actuator states or timed bursts.

    The reply is an input (`None` when the query failed, otherwise the list of
    numbers the serial library split it into), the clock `time.perf_counter()`
    is the parameter `now`, and the calls on the device layer are returned as
    a sequence of `Action`s. */
module Daq {
  import opened Numeric
  import opened Options
  import opened Qdev

  /** How a call of the acquisition function ended: it returned True, it
      returned False, or it raised `AttributeError` on a control attribute
      that had not been created yet. */
  datatype Outcome = Done | Failed | Raised

  // ---------------------------------------------------------------------------
  //  Decoding the reply
  // ---------------------------------------------------------------------------

  /** Unpacking the reply into the ten sample fields, then converting the
      actuator fields to booleans, the time to s and the pressures to mbar.
      The unpacking fails, and nothing is assigned, unless there are exactly
      ten values. */
  function Decode(reply: Option<seq<Float>>): (r: Option<Sample>)
    ensures r.Some? <==> reply.Some? && |reply.value| == 10
  {
    if reply.None? || |reply.value| != 10 then None
    else
      var v := reply.value;
      Some(Sample(
        time := Div(v[0], 1000.0),
        valve1 := Truthy(v[1]),
        valve2 := Truthy(v[2]),
        pump := Truthy(v[3]),
        humi1 := v[4],
        humi2 := v[5],
        temp1 := v[6],
        temp2 := v[7],
        pres1 := Div(v[8], 100.0),
        pres2 := Div(v[9], 100.0)))
  }

  // ---------------------------------------------------------------------------
  //  The control mechanism
  // ---------------------------------------------------------------------------

  /** The humidity that drives control: sensor 1 if so configured, else sensor 2. */
  function ControlHumidity(s: Sample, cfg: Config): (h: Float)
    ensures cfg.actOnSensorNo == 1 ==> h == s.humi1
    ensures cfg.actOnSensorNo != 1 ==> h == s.humi2
  {
    if cfg.actOnSensorNo == 1 then s.humi1 else s.humi2
  }

  /** `lo < x < hi`, false for NaN. */
  predicate Within(x: Float, lo: real, hi: real)
  {
    Lt(Num(lo), x) && Lt(x, Num(hi))
  }

  /** The band of a humidity error: dead band first, then fine band, else
      coarse. A NaN error lies in no interval and is Coarse. */
  function Classify(err: Float, cfg: Config): (b: ControlBand)
    ensures b == Dead <==> Within(err, cfg.deadbandDLo, cfg.deadbandDHi)
    ensures b == Fine <==> Within(err, cfg.finebandDLo, cfg.finebandDHi)
                           && !Within(err, cfg.deadbandDLo, cfg.deadbandDHi)
    ensures err.NaN? ==> b == Coarse
  {
    if Within(err, cfg.deadbandDLo, cfg.deadbandDHi) then Dead
    else if Within(err, cfg.finebandDLo, cfg.finebandDHi) then Fine
    else Coarse
  }

  /** Setting the three actuators of a profile, in the order valve 1, valve 2, pump. */
  function ProfileActions(p: ActuatorManager): seq<Action>
  {
    [SetValve1(p.enaValve1), SetValve2(p.enaValve2), SetPump(p.enaPump)]
  }

  const ALL_OFF_ACTIONS: seq<Action> := ProfileActions(NewActuatorManager())

  /** The result of the control part of one cycle. */
  datatype ControlResult = ControlResult(ctl: Control, actions: seq<Action>, outcome: Outcome)

  /** The fine band in automatic mode: restart the burst timer (and switch
      everything off) on entering the band, and fire a burst each time more
      than `burstUpdatePeriod` has passed since the timer was last reset. */
  function FineStep(c: Control, humi: Float, setpoint: Float, cfg: Config, now: real): (r: ControlResult)
    ensures r.outcome != Failed
    ensures r.outcome == Raised <==> c.prev.None? || (c.prev == Some(Fine) && c.tBurst.None?)
    ensures r.outcome == Raised ==> r.ctl == c && r.actions == []
    ensures r.outcome == Done ==>
      && r.ctl.band == c.band && r.ctl.prev == Some(Fine) && r.ctl.tBurst.Some?
      && (r.ctl.tBurst == Some(now) || now - r.ctl.tBurst.value <= cfg.burstUpdatePeriod)
  {
    if c.prev.None? then ControlResult(c, [], Raised)
    else
      var entering := c.prev.value != Fine;
      var t := if entering then Some(now) else c.tBurst;
      var off := if entering then ALL_OFF_ACTIONS else [];
      if t.None? then ControlResult(c, off, Raised)
      else if now - t.value > cfg.burstUpdatePeriod then
        var burst := if Lt(humi, setpoint) then BurstIncrRh else BurstDecrRh;
        ControlResult(c.(tBurst := Some(now), prev := Some(Fine)), off + [burst], Done)
      else
        ControlResult(c.(tBurst := t, prev := Some(Fine)), off, Done)
  }

  /** The control part of one successful cycle. */
  function ControlStep(c: Control, mode: ControlMode, humi: Float, setpoint: Float,
                       cfg: Config, now: real): (r: ControlResult)
    ensures r.outcome != Failed
    ensures r.ctl.band == Some(Classify(Sub(humi, setpoint), cfg))
    ensures r.outcome == Done ==> r.ctl.prev == r.ctl.band
    ensures r.outcome == Raised ==> r.ctl.prev == c.prev && r.actions == []
    ensures mode == Manual ==> r.actions == [] && r.ctl.tBurst == c.tBurst
  {
    var band := Classify(Sub(humi, setpoint), cfg);
    var c1 := c.(band := Some(band));
    if mode == Manual then ControlResult(c1.(prev := Some(band)), [], Done)
    else
      match band
      case Coarse =>
        var p := if Lt(humi, setpoint) then cfg.actuatorsIncr else cfg.actuatorsDecr;
        ControlResult(c1.(prev := Some(band)), ProfileActions(p), Done)
      case Fine =>
        FineStep(c1, humi, setpoint, cfg, now)
      case Dead =>
        ControlResult(c1.(prev := Some(band)), ALL_OFF_ACTIONS, Done)
  }

  // ---------------------------------------------------------------------------
  //  The acquisition function
  // ---------------------------------------------------------------------------

  /** Issues the three actuator requests of a profile. */
  method ApplyProfile(p: ActuatorManager, actions: seq<Action>) returns (actions': seq<Action>)
    ensures actions' == actions + ProfileActions(p)
  {
    actions' := actions + [SetValve1(p.enaValve1)];
    actions' := actions' + [SetValve2(p.enaValve2)];
    actions' := actions' + [SetPump(p.enaPump)];
  }

  /** The tuple unpacking of a ten-value reply into the sample fields, with
      the actuator fields converted to booleans. */
  method Unpack(state: State, v: seq<Float>)
    requires |v| == 10
    modifies state
    ensures state.Readings() ==
      Sample(v[0], Truthy(v[1]), Truthy(v[2]), Truthy(v[3]), v[4], v[5], v[6], v[7], v[8], v[9])
    ensures state.ControlAttributes() == old(state.ControlAttributes())
    ensures state.setpoint == old(state.setpoint) && state.controlMode == old(state.controlMode)
  {
    state.time, state.valve1, state.valve2, state.pump := v[0], Truthy(v[1]), Truthy(v[2]), Truthy(v[3]);
    state.humi1, state.humi2, state.temp1, state.temp2 := v[4], v[5], v[6], v[7];
    state.pres1, state.pres2 := v[8], v[9];
  }

  /** Assigns the ten values of a well-formed reply to the sample fields,
      then puts the PC's clock in place of the firmware's time. */
  method StoreReadings(state: State, v: seq<Float>, now: real)
    requires |v| == 10
    modifies state
    ensures state.Readings() == Decode(Some(v)).value.(time := Num(now))
    ensures state.ControlAttributes() == old(state.ControlAttributes())
    ensures state.setpoint == old(state.setpoint) && state.controlMode == old(state.controlMode)
  {
    Unpack(state, v);
    state.time := Div(state.time, 1000.0);
    state.pres1 := Div(state.pres1, 100.0);
    state.pres2 := Div(state.pres2, 100.0);

    // PC time instead of the firmware's
    state.time := Num(now);
  }

  /** The fine-band branch in automatic mode, after the band was assigned. */
  method FineBand(state: State, config: Config, humi: Float, now: real)
    returns (outcome: Outcome, actions: seq<Action>)
    requires state.controlBand == Some(Fine)
    modifies state
    ensures var r := FineStep(old(state.ControlAttributes()), humi, old(state.setpoint), config, now);
      state.ControlAttributes() == r.ctl && actions == r.actions && outcome == r.outcome
    ensures state.Readings() == old(state.Readings())
    ensures state.setpoint == old(state.setpoint) && state.controlMode == old(state.controlMode)
  {
    actions := [];
    if state.controlBandPrev.None? {
      return Raised, actions;
    }
    if state.controlBand != state.controlBandPrev {
      // Restart the burst timer on entering the fine band, and switch all off
      state.tBurst := Some(now);
      actions := ApplyProfile(NewActuatorManager(), actions);
    }
    if state.tBurst.None? {
      return Raised, actions;
    }
    if now - state.tBurst.value > config.burstUpdatePeriod {
      if Lt(humi, state.setpoint) {
        actions := actions + [BurstIncrRh];
      } else {
        actions := actions + [BurstDecrRh];
      }
      state.tBurst := Some(now);
    }
    state.controlBandPrev := state.controlBand;
    outcome := Done;
  }

  /** The control mechanism of one cycle, on the freshly stored readings. */
  method ControlCycle(state: State, config: Config, now: real)
    returns (outcome: Outcome, actions: seq<Action>)
    modifies state
    ensures var r := ControlStep(old(state.ControlAttributes()), old(state.controlMode),
                                 ControlHumidity(old(state.Readings()), config),
                                 old(state.setpoint), config, now);
      state.ControlAttributes() == r.ctl && actions == r.actions && outcome == r.outcome
    ensures state.Readings() == old(state.Readings())
    ensures state.setpoint == old(state.setpoint) && state.controlMode == old(state.controlMode)
  {
    actions := [];
    var humi := if config.actOnSensorNo == 1 then state.humi1 else state.humi2;
    var humiErr := Sub(humi, state.setpoint);

    if Within(humiErr, config.deadbandDLo, config.deadbandDHi) {
      state.controlBand := Some(Dead);
    } else if Within(humiErr, config.finebandDLo, config.finebandDHi) {
      state.controlBand := Some(Fine);
    } else {
      state.controlBand := Some(Coarse);
    }

    if state.controlMode == Auto {
      if state.controlBand == Some(Coarse) {
        if Lt(humi, state.setpoint) {
          actions := ApplyProfile(config.actuatorsIncr, actions);
        } else {
          actions := ApplyProfile(config.actuatorsDecr, actions);
        }
      } else if state.controlBand == Some(Fine) {
        outcome, actions := FineBand(state, config, humi, now);
        return;
      } else {
        // Dead band
        actions := ApplyProfile(NewActuatorManager(), actions);
      }
    }

    state.controlBandPrev := state.controlBand;
    outcome := Done;
  }

  /** `DAQ_function` on the shared `state`, with the configuration, the
      firmware's reply and the clock. */
  method DaqFunction(state: State, config: Config, reply: Option<seq<Float>>, now: real)
    returns (outcome: Outcome, actions: seq<Action>)
    modifies state
    ensures Decode(reply).None? ==>
      outcome == Failed && actions == []
      && state.Readings() == old(state.Readings())
      && state.ControlAttributes() == old(state.ControlAttributes())
    ensures Decode(reply).Some? ==>
      var r := ControlStep(old(state.ControlAttributes()), old(state.controlMode),
                           ControlHumidity(Decode(reply).value, config),
                           old(state.setpoint), config, now);
      && state.Readings() == Decode(reply).value.(time := Num(now))
      && state.ControlAttributes() == r.ctl
      && actions == r.actions && outcome == r.outcome
    ensures state.setpoint == old(state.setpoint) && state.controlMode == old(state.controlMode)
  {
    if reply.None? || |reply.value| != 10 {
      return Failed, [];
    }
    StoreReadings(state, reply.value, now);
    outcome, actions := ControlCycle(state, config, now);
  }
}
