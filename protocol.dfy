/** The text protocol between host and firmware, seen from both ends: the
    host's command strings as the firmware's dispatch reads them, and the
    firmware's report as the host's decoder reads it. */
module Protocol {
  import opened Numeric
  import opened Options
  import Ascii
  import F = Firmware
  import Q = Qdev
  import Daq
  import FirmwareProperties

  /** A host actuator profile as the firmware's three request flags. */
  function Flags(p: Q.ActuatorManager): F.Actuators
  {
    F.Actuators(p.enaValve1, p.enaValve2, p.enaPump)
  }

  /** The firmware command each host request stands for. */
  function Intended(a: Q.Action, cfg: Q.Config): F.Command
  {
    match a
    case SetValve1(on) => F.SetValve1(on)
    case SetValve2(on) => F.SetValve2(on)
    case SetPump(on) => F.SetPump(on)
    case BurstIncrRh => F.Burst(Flags(cfg.actuatorsIncr), cfg.incrRhBurstLength)
    case BurstDecrRh => F.Burst(Flags(cfg.actuatorsDecr), cfg.decrRhBurstLength)
  }

  // ---------------------------------------------------------------------------
  //  Host to firmware
  // ---------------------------------------------------------------------------

  /** The six single-actuator strings reach the firmware as the command for
      that actuator, with the intended level. */
  lemma TurnCommandsDecode()
    ensures F.ParseCommand(Q.TurnValve1On()) == F.SetValve1(true)
    ensures F.ParseCommand(Q.TurnValve1Off()) == F.SetValve1(false)
    ensures F.ParseCommand(Q.TurnValve2On()) == F.SetValve2(true)
    ensures F.ParseCommand(Q.TurnValve2Off()) == F.SetValve2(false)
    ensures F.ParseCommand(Q.TurnPumpOn()) == F.SetPump(true)
    ensures F.ParseCommand(Q.TurnPumpOff()) == F.SetPump(false)
  {
    assert "v11"[1] == '1' && "v10"[1] == '1' && "v21"[1] == '2' && "v20"[1] == '2';
  }

  /** A burst command "b" + flags + decimal length reaches the firmware as a
      burst of those flags and that length. */
  lemma EncodeBurstDecodes(p: Q.ActuatorManager, lengthMs: int)
    ensures F.ParseCommand(Q.EncodeBurst(p, lengthMs)) == F.Burst(Flags(p), lengthMs)
  {
    var s := Q.EncodeBurst(p, lengthMs);
    var head := ['b', Q.Bit(p.enaValve1), Q.Bit(p.enaValve2), Q.Bit(p.enaPump)];
    assert s == head + (Ascii.SignedDecimal(lengthMs) + []);
    assert F.ParseIntInString(s, 4) == lengthMs by {
      FirmwareProperties.ParseIntInStringOfDecimal(head, lengthMs, []);
    }
    assert F.ParseActuators(s) == Flags(p) by {
      assert s[1] == Q.Bit(p.enaValve1) && s[2] == Q.Bit(p.enaValve2) && s[3] == Q.Bit(p.enaPump);
    }
    assert |s| != 3;
  }

  /** Every request of the control mechanism, once encoded, is read by the
      firmware as the command it stands for. */
  lemma EncodedActionsDecode(a: Q.Action, cfg: Q.Config)
    ensures F.ParseCommand(Q.EncodeAction(a, cfg)) == Intended(a, cfg)
  {
    match a
    case BurstIncrRh => EncodeBurstDecodes(cfg.actuatorsIncr, cfg.incrRhBurstLength);
    case BurstDecrRh => EncodeBurstDecodes(cfg.actuatorsDecr, cfg.decrRhBurstLength);
    case _ => TurnCommandsDecode();
  }

  /** `burst_valve_1` and `burst_valve_2` as written: "b1" requests valve 1
      for 0 ms and "b2" requests nothing at all (only '1' counts as on), so
      either one just switches every actuator off in the `loop()` call that
      receives it. */
  lemma BurstValveCommandsAsWritten(m: F.Machine, now: U32, sensors: F.Readings)
    ensures F.ParseCommand(Q.BurstValve1()) == F.Burst(F.Actuators(true, false, false), 0)
    ensures F.ParseCommand(Q.BurstValve2()) == F.Burst(F.ALL_OFF, 0)
    ensures F.LoopSpec(m, now, Some(Q.BurstValve1()), sensors).m.state == F.ALL_OFF
    ensures F.LoopSpec(m, now, Some(Q.BurstValve2()), sensors).m.state == F.ALL_OFF
  {
    assert "b1"[0] == 'b' && "b2"[0] == 'b';
    FirmwareProperties.ZeroLengthBurstIsCancelled(m, now, Q.BurstValve1(), sensors);
    FirmwareProperties.ZeroLengthBurstIsCancelled(m, now, Q.BurstValve2(), sensors);
  }

  /** A burst command with a positive length (below 2^32 ms) switches on
      exactly the actuators of its profile, and the burst runs on. */
  lemma EncodedBurstOpensProfile(m: F.Machine, now: U32, p: Q.ActuatorManager, lengthMs: int,
                                 sensors: F.Readings)
    requires 0 < lengthMs < TWO_32
    ensures var r := F.LoopSpec(m, now, Some(Q.EncodeBurst(p, lengthMs)), sensors);
      r.m.state == Flags(p) && r.m.burst && r.m.burstLength == lengthMs && r.m.burstStart == now
  {
    var s := Q.EncodeBurst(p, lengthMs);
    assert F.ParseCommand(s) == F.Burst(Flags(p), lengthMs) by {
      EncodeBurstDecodes(p, lengthMs);
    }
    FirmwareProperties.BurstCommandStarts(m, now, s, Flags(p), lengthMs, sensors);
  }

  // ---------------------------------------------------------------------------
  //  Firmware to host
  // ---------------------------------------------------------------------------

  /** The host unpacks the firmware's report in the order it is printed:
      the actuator fields come back as the firmware's states, the sensor
      fields unchanged, the time in s and the pressures in mbar. */
  lemma ReportDecodes(elapsed: U32, st: F.Actuators, rd: F.Readings)
    ensures Daq.Decode(Some(F.ReportValues(elapsed, st, rd))) ==
      Some(Q.Sample(
        time := Num(elapsed as real / 1000.0),
        valve1 := st.valve1, valve2 := st.valve2, pump := st.pump,
        humi1 := rd.humi1, humi2 := rd.humi2,
        temp1 := rd.temp1, temp2 := rd.temp2,
        pres1 := Div(rd.pres1, 100.0), pres2 := Div(rd.pres2, 100.0)))
  {
  }

  /** Switching valve 1 on from the host: outside an expiring burst, the
      firmware's state has valve 1 on after that `loop()` call, and every
      report it sends in that call decodes at the host with valve 1 on. */
  lemma ValveOnIsReportedOn(m: F.Machine, now: U32, sensors: F.Readings)
    requires !F.BurstExpired(m, now)
    ensures var r := F.LoopSpec(m, now, Some(Q.TurnValve1On()), sensors);
      && r.m.state.valve1
      && forall e | e in r.events && e.Report? ::
           Daq.Decode(Some(e.values)).Some? && Daq.Decode(Some(e.values)).value.valve1
  {
    TurnCommandsDecode();
    FirmwareProperties.Valve1CommandTakesEffect(m, now, Q.TurnValve1On(), true, sensors);
    FirmwareProperties.ReportsCarryFinalState(m, now, Some(Q.TurnValve1On()), sensors);
  }
}
