/** The microcontroller firmware (src_mcu/src/main.cpp): a command interpreter
    for one-line serial commands, a timed "burst" of the actuators, a grant step
    that drives the actuator pins to the requested states, and a strict-interval
    data-acquisition tick that reports the state over serial.

    Hardware calls become recorded events: a pin write is `PinWrite`, a line
    sent over serial is `IdReply` or `Report`, a (re)connection attempt of the
    two BME280 sensors is `ConnectSensors`. Sensor readings and the `millis()`
    clock are inputs of each `loop()` call. */
module Firmware {
  import opened Numeric
  import opened Ascii
  import opened Options

  const PIN_VALVE_1: nat := 12
  const PIN_VALVE_2: nat := 5
  const PIN_PUMP: nat := 13

  /** Data-acquisition period in ms. */
  const DAQ_PERIOD: U32 := 1000

  const ID_REPLY: string := "Arduino, Humidistat v1"

  /** The three actuator fields shared by the `State` and `Request` records. */
  datatype Actuators = Actuators(valve1: bool, valve2: bool, pump: bool)

  const ALL_OFF: Actuators := Actuators(false, false, false)

  /** The sensor fields of the `State` record (pressures in Pa). */
  datatype Readings = Readings(temp1: Float, temp2: Float, humi1: Float, humi2: Float,
                               pres1: Float, pres2: Float)

  // ---------------------------------------------------------------------------
  //  Positional parsers
  // ---------------------------------------------------------------------------

  /** C's `strlen`: the number of characters before the first NUL. */
  function Strlen(s: string): (n: nat)
    ensures n <= |s| && '\0' !in s[..n]
    ensures n < |s| ==> s[n] == '\0'
  {
    if s == [] || s[0] == '\0' then 0
    else
      var n := 1 + Strlen(s[1..]);
      assert s[..n] == [s[0]] + s[1..][..n - 1];
      n
  }

  /** The C string a command buffer holds: its characters up to the first NUL,
      which is what `strcmp` compares. */
  function CStr(s: string): string
  {
    s[..Strlen(s)]
  }

  /** The C string reaches index `i` exactly when no NUL comes at or before it. */
  lemma StrlenReaches(s: string, i: nat)
    ensures Strlen(s) > i <==> i < |s| && '\0' !in s[..i + 1]
  {
    var n := Strlen(s);
    if n > i {
      assert s[..i + 1] == s[..n][..i + 1];
    } else if i < |s| && n < |s| {
      assert s[..i + 1][n] == '\0';
    }
  }

  /** `parseBoolInString`: the character at index `i` is '1', and the C string
      reaches that far (no NUL before it). */
  function ParseBoolInString(s: string, i: nat): (b: bool)
    ensures b <==> i < |s| && s[i] == '1' && '\0' !in s[..i]
  {
    StrlenReaches(s, i);
    assert i < |s| ==> s[..i + 1] == s[..i] + [s[i]];
    if Strlen(s) > i then s[i] == '1' else false
  }

  /** `parseIntInString`: `atoi` of the suffix from index `i` when the C string
      reaches index `i`, and 0 otherwise. A NUL at index `i` itself gives 0
      either way, as `atoi` of an empty string. */
  function ParseIntInString(s: string, i: nat): (r: int)
    ensures i < |s| && '\0' !in s[..i] ==> r == Atoi(s[i..])
    ensures i >= |s| || '\0' in s[..i] ==> r == 0
  {
    StrlenReaches(s, i);
    assert i < |s| ==> s[..i + 1] == s[..i] + [s[i]] && s[i..][0] == s[i];
    if Strlen(s) > i then Atoi(s[i..]) else 0
  }

  /** The string with its leading white space removed. */
  function SkipSpaces(s: string): string
  {
    if s != [] && IsSpace(s[0]) then SkipSpaces(s[1..]) else s
  }

  /** The length of the run of decimal digits that starts the string. */
  function DigitRun(s: string): (n: nat)
    ensures n <= |s| && AllDigits(s[..n])
    ensures n < |s| ==> !IsDigit(s[n])
  {
    if s != [] && IsDigit(s[0]) then
      var n := 1 + DigitRun(s[1..]);
      assert s[..n] == [s[0]] + s[1..][..n - 1];
      n
    else 0
  }

  /** The value of the leading run of digits (0 if there is none). */
  function LeadingValue(s: string): nat
  {
    DecimalValue(s[..DigitRun(s)])
  }

  /** C's `atoi`: leading white space, an optional sign, then as many decimal
      digits as follow; anything after them is ignored. */
  function Atoi(s: string): (r: int)
    ensures s == [] || !(IsSpace(s[0]) || s[0] == '-' || s[0] == '+' || IsDigit(s[0])) ==> r == 0
  {
    var t := SkipSpaces(s);
    if t != [] && t[0] == '-' then 0 - LeadingValue(t[1..]) as int
    else if t != [] && t[0] == '+' then LeadingValue(t[1..])
    else LeadingValue(t)
  }

  // ---------------------------------------------------------------------------
  //  Command dispatch
  // ---------------------------------------------------------------------------

  /** What one serial command asks for. */
  datatype Command =
    | Identify                            // "id?"
    | SetAll(req: Actuators)              // "a"[v1][v2][pump]
    | Burst(req: Actuators, length: int)  // "b"[v1][v2][pump][duration in ms]
    | SetValve1(on: bool)                 // "v1"[0/1]
    | SetValve2(on: bool)                 // "v2"[0/1]
    | SetPump(on: bool)                   // "p"[0/1]
    | ReconnectSensors                    // "r"
    | Unknown                             // anything else: ignored

  /** `strncmp(s, "c", 1) == 0`: the command starts with `c`. */
  predicate StartsWith(s: string, c: char)
  {
    |s| >= 1 && s[0] == c
  }

  /** `strncmp(s, "c0c1", 2) == 0`: the command starts with `c0` then `c1`. */
  predicate StartsWith2(s: string, c0: char, c1: char)
  {
    |s| >= 2 && s[0] == c0 && s[1] == c1
  }

  /** The three actuator flags at indices 1, 2 and 3 of an "a" or "b" command. */
  function ParseActuators(s: string): Actuators
  {
    Actuators(ParseBoolInString(s, 1), ParseBoolInString(s, 2), ParseBoolInString(s, 3))
  }

  /** The if-else chain of `loop()`: the first test that matches decides.
      `strcmp` compares the C string, so a NUL ends the command; the prefix
      tests look only at characters that are not NUL. The tests that can
      match are told apart by the first character alone. */
  function ParseCommand(s: string): (r: Command)
    ensures r.Identify? <==> CStr(s) == "id?"
    ensures r.SetAll? <==> StartsWith(s, 'a')
    ensures r.Burst? <==> StartsWith(s, 'b')
    ensures r.SetValve1? <==> StartsWith2(s, 'v', '1')
    ensures r.SetValve2? <==> StartsWith2(s, 'v', '2')
    ensures r.SetPump? <==> StartsWith(s, 'p')
    ensures r.ReconnectSensors? <==> CStr(s) == "r"
  {
    var c := CStr(s);
    assert c != [] ==> c[0] == s[0];
    assert s != [] && s[0] != '\0' ==> c != [];
    assert "id?"[0] == 'i' && "r"[0] == 'r';
    if c == "id?" then Identify
    else if StartsWith(s, 'a') then SetAll(ParseActuators(s))
    else if StartsWith(s, 'b') then Burst(ParseActuators(s), ParseIntInString(s, 4))
    else if StartsWith2(s, 'v', '1') then SetValve1(ParseBoolInString(s, 2))
    else if StartsWith2(s, 'v', '2') then SetValve2(ParseBoolInString(s, 2))
    else if StartsWith(s, 'p') then SetPump(ParseBoolInString(s, 1))
    else if c == "r" then ReconnectSensors
    else Unknown
  }

  // ---------------------------------------------------------------------------
  //  The state of `loop()`, as a value, and one call of `loop()` as functions
  // ---------------------------------------------------------------------------

  /** The globals `request` and `state`, and the static locals of `loop()`:
      `t_0` and `tick` (set by the first call), `burst`, `T_burst`, `t_burst`. */
  datatype Machine = Machine(
    request: Actuators,
    state: Actuators,
    readings: Readings,
    started: bool,
    t0: U32,
    tick: U32,
    burst: bool,
    burstLength: U32,
    burstStart: U32)

  datatype Event =
    | IdReply(text: string)
    | PinWrite(pin: nat, level: bool)
    | Report(values: seq<Float>)
    | ConnectSensors

  /** A new machine state together with the events produced getting there. */
  datatype Step = Step(m: Machine, events: seq<Event>)

  /** How `Serial.print` writes a bool: as the number 1 or 0. */
  function BoolField(b: bool): Float
  {
    if b then Num(1.0) else Num(0.0)
  }

  /** The fields of one `report` line, in the order they are printed. */
  function ReportValues(elapsed: U32, s: Actuators, r: Readings): (v: seq<Float>)
    ensures |v| == 10 && v[0] == Num(elapsed as real)
    ensures forall k | 1 <= k <= 3 :: v[k] == Num(0.0) || v[k] == Num(1.0)
  {
    [Num(elapsed as real), BoolField(s.valve1), BoolField(s.valve2), BoolField(s.pump),
     r.humi1, r.humi2, r.temp1, r.temp2, r.pres1, r.pres2]
  }

  /** `report(now, t_0)` of the machine's current state. */
  function ReportOf(m: Machine, now: U32): Event
  {
    Report(ReportValues(Sub32(now, m.t0), m.state, m.readings))
  }

  /** The first call of `loop()` initialises the static locals `t_0` and `tick`. */
  function Begin(m: Machine, now: U32): Machine
  {
    if m.started then m else m.(started := true, t0 := now, tick := now)
  }

  /** Processing of one incoming serial command, if any. */
  function Dispatch(m: Machine, cmd: Option<string>, now: U32): (r: Step)
    ensures r.m.(request := m.request, burst := m.burst, burstLength := m.burstLength,
                 burstStart := m.burstStart) == m
    ensures forall e | e in r.events :: !e.Report? && !e.PinWrite?
    ensures cmd.Some? && CStr(cmd.value) == "id?" ==> r == Step(m, [IdReply(ID_REPLY)])
    ensures cmd.Some? && CStr(cmd.value) == "r" ==> r == Step(m, [ConnectSensors])
  {
    if cmd.None? then Step(m, [])
    else
      match ParseCommand(cmd.value)
      case Identify => Step(m, [IdReply(ID_REPLY)])
      case SetAll(r) => Step(m.(request := r), [])
      case Burst(r, len) =>
        Step(m.(request := r, burstLength := Wrap32(len), burstStart := now, burst := true), [])
      case SetValve1(b) => Step(m.(request := m.request.(valve1 := b)), [])
      case SetValve2(b) => Step(m.(request := m.request.(valve2 := b)), [])
      case SetPump(b) => Step(m.(request := m.request.(pump := b)), [])
      case ReconnectSensors => Step(m, [ConnectSensors])
      case Unknown => Step(m, [])
  }

  /** Whether a burst in progress has run its length at time `now`. */
  predicate BurstExpired(m: Machine, now: U32)
  {
    m.burst && Sub32(now, m.burstStart) >= m.burstLength
  }

  /** At the end of a burst every actuator is requested off. */
  function EndBurst(m: Machine, now: U32): (r: Machine)
    ensures BurstExpired(m, now) ==> r == m.(burst := false, request := ALL_OFF)
    ensures !BurstExpired(m, now) ==> r == m
  {
    if BurstExpired(m, now) then m.(burst := false, request := ALL_OFF) else m
  }

  /** The pin write for one actuator field, if its requested state differs. */
  function WriteIfChanged(pin: nat, requested: bool, actual: bool): seq<Event>
  {
    if requested != actual then [PinWrite(pin, requested)] else []
  }

  /** A pin write that drives an actuator's pin to its requested level,
      where that actuator's requested and actual states differ. */
  predicate ChangedFieldWrite(e: Event, request: Actuators, state: Actuators)
  {
    || (e == PinWrite(PIN_VALVE_1, request.valve1) && request.valve1 != state.valve1)
    || (e == PinWrite(PIN_VALVE_2, request.valve2) && request.valve2 != state.valve2)
    || (e == PinWrite(PIN_PUMP, request.pump) && request.pump != state.pump)
  }

  /** The events `w` write every pin whose field differs, at the requested
      level, each once, and nothing else. */
  predicate WritesChangedFields(w: seq<Event>, request: Actuators, state: Actuators)
  {
    && (forall e | e in w :: ChangedFieldWrite(e, request, state))
    && (request.valve1 != state.valve1 ==> PinWrite(PIN_VALVE_1, request.valve1) in w)
    && (request.valve2 != state.valve2 ==> PinWrite(PIN_VALVE_2, request.valve2) in w)
    && (request.pump != state.pump ==> PinWrite(PIN_PUMP, request.pump) in w)
    && (forall i, j | 0 <= i < j < |w| :: w[i] != w[j])
  }

  /** The pin writes of the grant step, in the order valve 1, valve 2, pump. */
  function PinWrites(request: Actuators, state: Actuators): (w: seq<Event>)
    ensures WritesChangedFields(w, request, state)
  {
    WriteIfChanged(PIN_VALVE_1, request.valve1, state.valve1)
    + WriteIfChanged(PIN_VALVE_2, request.valve2, state.valve2)
    + WriteIfChanged(PIN_PUMP, request.pump, state.pump)
  }

  /** Granting the requested states: the actual states become the requested
      ones, pins are written for the changed fields only, and exactly one
      report of the granted state follows when anything changed. */
  function Grant(m: Machine, now: U32): (r: Step)
    ensures r.m == m.(state := m.request)
    ensures m.request == m.state ==> r.events == []
    ensures m.request != m.state ==>
      && |r.events| >= 2
      && r.events[|r.events| - 1] == ReportOf(r.m, now)
      && WritesChangedFields(r.events[..|r.events| - 1], m.request, m.state)
  {
    var m' := m.(state := m.request);
    var w := PinWrites(m.request, m.state);
    var tail := if m.request != m.state then [ReportOf(m', now)] else [];
    assert (w + tail)[..|w + tail| - |tail|] == w;
    Step(m', w + tail)
  }

  /** Whether the acquisition tick is due at time `now`. */
  predicate TickDue(m: Machine, now: U32)
  {
    Sub32(now, m.tick) >= DAQ_PERIOD
  }

  /** The acquisition tick: `tick` advances by exactly one period, the sensors
      are read and the new state is reported. */
  function Acquire(m: Machine, now: U32, sensors: Readings): (r: Step)
    ensures r.m.state == m.state && r.m.request == m.request && |r.events| <= 1
    ensures r.events != [] <==> TickDue(m, now)
    ensures TickDue(m, now) ==>
      && r.m == m.(tick := Add32(m.tick, DAQ_PERIOD), readings := sensors)
      && r.events == [ReportOf(r.m, now)]
    ensures !TickDue(m, now) ==> r.m == m
  {
    if TickDue(m, now) then
      var m' := m.(tick := Add32(m.tick, DAQ_PERIOD), readings := sensors);
      Step(m', [ReportOf(m', now)])
    else Step(m, [])
  }

  /** What `loop()` does after the command dispatch: end an expired burst,
      grant the requests, run the acquisition tick. */
  function Settle(m: Machine, now: U32, sensors: Readings): (r: Step)
    ensures r.m.state == r.m.request
  {
    var g := Grant(EndBurst(m, now), now);
    var a := Acquire(g.m, now, sensors);
    Step(a.m, g.events + a.events)
  }

  /** One call of `loop()`. */
  function LoopSpec(m: Machine, now: U32, cmd: Option<string>, sensors: Readings): (r: Step)
    ensures r.m.state == r.m.request
    ensures r.m.started
  {
    var d := Dispatch(Begin(m, now), cmd, now);
    var s := Settle(d.m, now, sensors);
    Step(s.m, d.events + s.events)
  }

  /** One `loop()` call is its start, the command dispatch and the rest,
      in that order. */
  lemma LoopSpecIsDispatchThenSettle(m0: Machine, m1: Machine, m2: Machine, m3: Machine,
                                     e0: seq<Event>, e1: seq<Event>, e2: seq<Event>, e3: seq<Event>,
                                     now: U32, cmd: Option<string>, sensors: Readings)
    requires m1 == Begin(m0, now) && e1 == e0
    requires m2 == Dispatch(m1, cmd, now).m && e2 == e1 + Dispatch(m1, cmd, now).events
    requires m3 == Settle(m2, now, sensors).m && e3 == e2 + Settle(m2, now, sensors).events
    ensures m3 == LoopSpec(m0, now, cmd, sensors).m
    ensures e3 == e0 + LoopSpec(m0, now, cmd, sensors).events
  {
    var d, s := Dispatch(m1, cmd, now), Settle(m2, now, sensors);
    assert LoopSpec(m0, now, cmd, sensors) == Step(s.m, d.events + s.events);
    AppendIsAssociative(e0, d.events, s.events);
  }

  /** Event logs grow by appending; regrouping the appends changes nothing. */
  lemma AppendIsAssociative(a: seq<Event>, b: seq<Event>, c: seq<Event>)
    ensures a + b + c == a + (b + c)
  {
  }

  // ---------------------------------------------------------------------------
  //  The firmware as an object: `setup()` and `loop()`
  // ---------------------------------------------------------------------------

  class Board {
    var request: Actuators
    var state: Actuators
    var readings: Readings
    var started: bool
    var t0: U32
    var tick: U32
    var burst: bool
    var burstLength: U32
    var burstStart: U32
    /** Everything the firmware has done to its pins and its serial port. */
    var events: seq<Event>

    function Snapshot(): Machine
      reads this
    {
      Machine(request, state, readings, started, t0, tick, burst, burstLength, burstStart)
    }

    /** `setup()`: the pins are driven low, the sensors are connected, and a
        first (discarded, but stored) reading is taken. */
    constructor (first: Readings)
      ensures Snapshot() == Machine(ALL_OFF, ALL_OFF, first, false, 0, 0, false, 0, 0)
      ensures events == [PinWrite(PIN_VALVE_1, false), PinWrite(PIN_VALVE_2, false),
                         PinWrite(PIN_PUMP, false), ConnectSensors]
    {
      request, state := ALL_OFF, ALL_OFF;
      started, t0, tick := false, 0, 0;
      burst, burstLength, burstStart := false, 0, 0;
      events := [PinWrite(PIN_VALVE_1, false), PinWrite(PIN_VALVE_2, false),
                 PinWrite(PIN_PUMP, false), ConnectSensors];
      readings := first;
    }

    /** `report(now, t_0)`. */
    method SendReport(now: U32)
      modifies this`events
      ensures events == old(events) + [ReportOf(Snapshot(), now)]
    {
      events := events + [Report(ReportValues(Sub32(now, t0), state, readings))];
    }

    /** `measure_and_report(now, t_0)`. */
    method MeasureAndReport(now: U32, sensors: Readings)
      modifies this`readings, this`events
      ensures readings == sensors
      ensures events == old(events) + [ReportOf(Snapshot(), now)]
    {
      readings := sensors;
      SendReport(now);
    }

    /** The command dispatch of `loop()`. */
    method ProcessCommand(now: U32, cmd: Option<string>)
      modifies this
      ensures Snapshot() == Dispatch(old(Snapshot()), cmd, now).m
      ensures events == old(events) + Dispatch(old(Snapshot()), cmd, now).events
    {
      if cmd.Some? {
        match ParseCommand(cmd.value)
        case Identify =>
          events := events + [IdReply(ID_REPLY)];
        case SetAll(r) =>
          request := r;
        case Burst(r, len) =>
          request := r;
          burstLength := Wrap32(len);
          burstStart := now;
          burst := true;
        case SetValve1(b) =>
          request := request.(valve1 := b);
        case SetValve2(b) =>
          request := request.(valve2 := b);
        case SetPump(b) =>
          request := request.(pump := b);
        case ReconnectSensors =>
          events := events + [ConnectSensors];
        case Unknown =>
      }
    }

    /** Granting the requested actuator states, pin by pin. */
    method GrantRequests(now: U32)
      modifies this
      ensures Snapshot() == Grant(old(Snapshot()), now).m
      ensures events == old(events) + Grant(old(Snapshot()), now).events
    {
      var changeDetected := WritePins();
      if changeDetected {
        SendReport(now);
      }
    }

    /** The three compare-and-write steps of the grant step; tells whether
        any field changed. */
    method WritePins() returns (changeDetected: bool)
      modifies this`state, this`events
      ensures state == old(request)
      ensures events == old(events) + PinWrites(old(request), old(state))
      ensures changeDetected <==> old(request) != old(state)
    {
      ghost var r0, s0 := request, state;
      changeDetected := false;
      var writes: seq<Event> := [];
      if request.valve1 != state.valve1 {
        state := state.(valve1 := request.valve1);
        writes := writes + [PinWrite(PIN_VALVE_1, state.valve1)];
        changeDetected := true;
      }
      ghost var w1 := writes;
      if request.valve2 != state.valve2 {
        state := state.(valve2 := request.valve2);
        writes := writes + [PinWrite(PIN_VALVE_2, state.valve2)];
        changeDetected := true;
      }
      ghost var w2 := writes;
      if request.pump != state.pump {
        state := state.(pump := request.pump);
        writes := writes + [PinWrite(PIN_PUMP, state.pump)];
        changeDetected := true;
      }
      assert writes == w2 + WriteIfChanged(PIN_PUMP, r0.pump, s0.pump);
      assert w2 == w1 + WriteIfChanged(PIN_VALVE_2, r0.valve2, s0.valve2);
      assert w1 == WriteIfChanged(PIN_VALVE_1, r0.valve1, s0.valve1);
      events := events + writes;
    }

    /** Request to turn off the actuators at the end of a burst. */
    method EndBurstIfDue(now: U32)
      modifies this
      ensures Snapshot() == EndBurst(old(Snapshot()), now)
      ensures events == old(events)
    {
      if burst && Sub32(now, burstStart) >= burstLength {
        burst := false;
        request := ALL_OFF;
      }
    }

    /** The data-acquisition tick, with strict-interval time keeping. */
    method AcquireIfDue(now: U32, sensors: Readings)
      modifies this
      ensures Snapshot() == Acquire(old(Snapshot()), now, sensors).m
      ensures events == old(events) + Acquire(old(Snapshot()), now, sensors).events
    {
      if Sub32(now, tick) >= DAQ_PERIOD {
        tick := Add32(tick, DAQ_PERIOD);
        MeasureAndReport(now, sensors);
      }
    }

    /** The part of `loop()` after the command dispatch. */
    method Finish(now: U32, sensors: Readings)
      modifies this
      ensures Snapshot() == Settle(old(Snapshot()), now, sensors).m
      ensures events == old(events) + Settle(old(Snapshot()), now, sensors).events
    {
      EndBurstIfDue(now);
      GrantRequests(now);
      AcquireIfDue(now, sensors);
    }

    /** The first call of `loop()` initialises the static locals `t_0` and
        `tick` to `now`. */
    method Start(now: U32)
      modifies this
      ensures Snapshot() == Begin(old(Snapshot()), now)
      ensures events == old(events)
    {
      if !started {
        t0, tick, started := now, now, true;
      }
    }

    /** One call of `loop()` at time `now`, with the serial command that has
        arrived (if any) and what the sensors would read. */
    method Loop(now: U32, cmd: Option<string>, sensors: Readings)
      modifies this
      ensures Snapshot() == LoopSpec(old(Snapshot()), now, cmd, sensors).m
      ensures events == old(events) + LoopSpec(old(Snapshot()), now, cmd, sensors).events
      ensures state == request
    {
      ghost var m0, e0 := Snapshot(), events;
      Start(now);
      ghost var m1, e1 := Snapshot(), events;
      ProcessCommand(now, cmd);
      ghost var m2, e2 := Snapshot(), events;
      Finish(now, sensors);
      LoopSpecIsDispatchThenSettle(m0, m1, m2, Snapshot(), e0, e1, e2, events, now, cmd, sensors);
    }
  }
}
