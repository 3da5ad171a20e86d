/** The host's device layer (src_python/humidistat_qdev.py): the command
    strings it sends to the firmware, the actuator profiles, the control
    configuration with its defaults, and the `State` record that the
    acquisition function fills in every cycle.

    `send(self.dev.write, ...)` is a foreign call: an encoder here returns the
    wire string it would send. */
module Qdev {
  import opened Numeric
  import opened Options
  import Ascii

  /** The control mode as the acquisition function uses it. */
  datatype ControlMode = Manual | Auto

  /** The band the humidity error falls in. */
  datatype ControlBand = Coarse | Fine | Dead

  /** `ActuatorManager`: which actuators to enable to drive the humidity one way. */
  datatype ActuatorManager = ActuatorManager(enaValve1: bool, enaValve2: bool, enaPump: bool)

  /** `ActuatorManager(valve_1=False, valve_2=False, pump=False)`. */
  function NewActuatorManager(valve1: bool := false, valve2: bool := false,
                              pump: bool := false): ActuatorManager
  {
    ActuatorManager(valve1, valve2, pump)
  }

  /** `Humidistat_qdev.Config`. Band bounds are in %RH relative to the
      setpoint, the burst period in s, the burst lengths in ms. */
  datatype Config = Config(
    actuatorsIncr: ActuatorManager,
    actuatorsDecr: ActuatorManager,
    actOnSensorNo: int,
    finebandDHi: real,
    finebandDLo: real,
    deadbandDHi: real,
    deadbandDLo: real,
    burstUpdatePeriod: real,
    incrRhBurstLength: int,
    decrRhBurstLength: int)

  /** `Config()` as constructed by `__init__`. */
  function DefaultConfig(): Config
  {
    Config(
      actuatorsIncr := NewActuatorManager(true, false, true),
      actuatorsDecr := NewActuatorManager(false, true, true),
      actOnSensorNo := 1,
      finebandDHi := 2.0,
      finebandDLo := -2.0,
      deadbandDHi := 0.5,
      deadbandDLo := -0.5,
      burstUpdatePeriod := 10.0,
      incrRhBurstLength := 500,
      decrRhBurstLength := 1000)
  }

  /** The sample fields of `State`: the last decoded reply of the firmware
      (time in s, pressures in mbar). */
  datatype Sample = Sample(
    time: Float,
    valve1: bool, valve2: bool, pump: bool,
    humi1: Float, humi2: Float,
    temp1: Float, temp2: Float,
    pres1: Float, pres2: Float)

  /** The control attributes of `State` that only the acquisition function
      assigns. `__init__` does not create them, so each is `None` until its
      first assignment; reading one that is `None` raises `AttributeError`. */
  datatype Control = Control(
    band: Option<ControlBand>,
    prev: Option<ControlBand>,
    tBurst: Option<real>)

  /** `Humidistat_qdev.State`, which the acquisition function updates in place. */
  class State {
    var time: Float
    var valve1: bool
    var valve2: bool
    var pump: bool
    var temp1: Float
    var temp2: Float
    var humi1: Float
    var humi2: Float
    var pres1: Float
    var pres2: Float
    var setpoint: Float
    var controlMode: ControlMode
    var controlBand: Option<ControlBand>
    var controlBandPrev: Option<ControlBand>
    var tBurst: Option<real>

    function Readings(): Sample
      reads this
    {
      Sample(time, valve1, valve2, pump, humi1, humi2, temp1, temp2, pres1, pres2)
    }

    function ControlAttributes(): Control
      reads this
    {
      Control(controlBand, controlBandPrev, tBurst)
    }

    /** `State()`: no readings yet, every actuator off, no setpoint, manual
        control, and none of the control attributes created. */
    constructor ()
      ensures Readings() == Sample(NaN, false, false, false, NaN, NaN, NaN, NaN, NaN, NaN)
      ensures setpoint == NaN && controlMode == Manual
      ensures ControlAttributes() == Control(None, None, None)
    {
      time := NaN;
      valve1 := false;
      valve2 := false;
      pump := false;
      temp1 := NaN;
      temp2 := NaN;
      humi1 := NaN;
      humi2 := NaN;
      pres1 := NaN;
      pres2 := NaN;
      setpoint := NaN;
      controlMode := Manual;
      controlBand, controlBandPrev, tBurst := None, None, None;
    }
  }

  // ---------------------------------------------------------------------------
  //  Command strings
  // ---------------------------------------------------------------------------

  function TurnValve1Off(): string { "v10" }
  function TurnValve1On(): string { "v11" }
  function TurnValve2Off(): string { "v20" }
  function TurnValve2On(): string { "v21" }
  function TurnPumpOff(): string { "p0" }
  function TurnPumpOn(): string { "p1" }

  /** `burst_valve_1` as written: no actuator flags beyond the first and no
      duration. */
  function BurstValve1(): string { "b1" }

  /** `burst_valve_2` as written. */
  function BurstValve2(): string { "b2" }

  /** One actuator flag on the wire. */
  function Bit(b: bool): char
  {
    if b then '1' else '0'
  }

  /** The burst command for a profile and a length in ms:
      "b" + three flags + the length in decimal, as Python's `str` writes it. */
  function EncodeBurst(p: ActuatorManager, lengthMs: int): (s: string)
    ensures |s| >= 5 && s[0] == 'b'
    ensures s[1..4] == [Bit(p.enaValve1), Bit(p.enaValve2), Bit(p.enaPump)]
    ensures s[4..] == Ascii.SignedDecimal(lengthMs)
  {
    ['b', Bit(p.enaValve1), Bit(p.enaValve2), Bit(p.enaPump)] + Ascii.SignedDecimal(lengthMs)
  }

  /** The requests the acquisition function makes of the device layer. */
  datatype Action =
    | SetValve1(on: bool)
    | SetValve2(on: bool)
    | SetPump(on: bool)
    | BurstIncrRh
    | BurstDecrRh

  /** The wire string of each request: the `turn_*` strings for the single
      actuators, and a burst of the configured profile and length. */
  function EncodeAction(a: Action, cfg: Config): string
  {
    match a
    case SetValve1(on) => if on then TurnValve1On() else TurnValve1Off()
    case SetValve2(on) => if on then TurnValve2On() else TurnValve2Off()
    case SetPump(on) => if on then TurnPumpOn() else TurnPumpOff()
    case BurstIncrRh => EncodeBurst(cfg.actuatorsIncr, cfg.incrRhBurstLength)
    case BurstDecrRh => EncodeBurst(cfg.actuatorsDecr, cfg.decrRhBurstLength)
  }

  // ---------------------------------------------------------------------------
  //  Properties of the defaults and the command strings
  // ---------------------------------------------------------------------------

  /** Each on/off pair of commands differs only in its last character, '1'
      for on and '0' for off. */
  lemma OnOffPairsDifferInLastCharacter()
    ensures forall on, off | (on, off) in {(TurnValve1On(), TurnValve1Off()),
                                           (TurnValve2On(), TurnValve2Off()),
                                           (TurnPumpOn(), TurnPumpOff())} ::
      |on| == |off| >= 2 && on[..|on| - 1] == off[..|off| - 1]
      && on[|on| - 1] == '1' && off[|off| - 1] == '0'
  {
  }

  /** The default profiles and burst parameters; the default dead band lies
      strictly inside the default fine band, and both straddle zero. */
  lemma DefaultConfigShape()
    ensures NewActuatorManager() == ActuatorManager(false, false, false)
    ensures var c := DefaultConfig();
      && c.actuatorsIncr == ActuatorManager(true, false, true)
      && c.actuatorsDecr == ActuatorManager(false, true, true)
      && c.finebandDLo < c.deadbandDLo < 0.0 < c.deadbandDHi < c.finebandDHi
      && c.burstUpdatePeriod == 10.0
      && c.incrRhBurstLength == 500 && c.decrRhBurstLength == 1000
  {
  }
}
