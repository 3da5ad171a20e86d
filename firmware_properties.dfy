/** What the firmware's parsers, command dispatch, burst timer, grant step and
    acquisition tick guarantee, stated over the functions of module `Firmware`. */
module FirmwareProperties {
  import opened Numeric
  import opened Ascii
  import opened Options
  import opened Firmware

  // ---------------------------------------------------------------------------
  //  The positional parsers
  // ---------------------------------------------------------------------------

  /** The flag at an index, after characters that are not NUL, is the
      character there: '1' reads as true and any other character as false. */
  lemma ParseBoolInStringReadsOneCharacter(prefix: string, c: char, rest: string)
    requires '\0' !in prefix
    ensures ParseBoolInString(prefix + [c] + rest, |prefix|) <==> c == '1'
  {
    var s := prefix + [c] + rest;
    assert s[|prefix|] == c && s[..|prefix|] == prefix;
  }

  /** Past the end of the C string both parsers give their default. */
  lemma ParsersPastTheEnd(s: string, i: nat)
    requires Strlen(s) <= i
    ensures !ParseBoolInString(s, i) && ParseIntInString(s, i) == 0
  {
    StrlenReaches(s, i);
    if i < |s| {
      assert s[..i + 1] == s[..i] + [s[i]];
    }
  }

  /** A run of digits followed by the end of the string or a non-digit is
      exactly as long as the digits. */
  lemma {:induction false} DigitRunOfDigits(ds: string, rest: string)
    requires AllDigits(ds)
    requires rest == [] || !IsDigit(rest[0])
    ensures DigitRun(ds + rest) == |ds|
  {
    if ds != [] {
      assert (ds + rest)[1..] == ds[1..] + rest;
      DigitRunOfDigits(ds[1..], rest);
    }
  }

  /** The leading run of a string of digits followed by a non-digit (or
      nothing) is worth those digits. */
  lemma LeadingValueOfDigits(ds: string, rest: string)
    requires AllDigits(ds)
    requires rest == [] || !IsDigit(rest[0])
    ensures LeadingValue(ds + rest) == DecimalValue(ds)
  {
    DigitRunOfDigits(ds, rest);
    assert (ds + rest)[..|ds|] == ds;
  }

  /** `atoi` of digits followed by a non-digit (or nothing). */
  lemma AtoiOfDigits(ds: string, rest: string)
    requires ds != [] && AllDigits(ds)
    requires rest == [] || !IsDigit(rest[0])
    ensures Atoi(ds + rest) == DecimalValue(ds)
  {
    var t := ds + rest;
    assert LeadingValue(t) == DecimalValue(ds) by {
      LeadingValueOfDigits(ds, rest);
    }
    assert SkipSpaces(t) == t && t[0] == ds[0] by {
      assert t[0] == ds[0];
    }
  }

  /** The same with a minus sign in front. */
  lemma AtoiOfNegatedDigits(ds: string, rest: string)
    requires ds != [] && AllDigits(ds)
    requires rest == [] || !IsDigit(rest[0])
    ensures Atoi("-" + ds + rest) == -(DecimalValue(ds) as int)
  {
    var t := ds + rest;
    var u := "-" + ds + rest;
    assert LeadingValue(t) == DecimalValue(ds) by {
      LeadingValueOfDigits(ds, rest);
    }
    assert u[1..] == t by {
      assert |u[1..]| == |t|;
      forall i | 0 <= i < |t|
        ensures u[1..][i] == t[i]
      {
        if i < |ds| {
          assert u[1 + i] == ds[i];
        } else {
          assert u[1 + i] == rest[i - |ds|];
        }
      }
    }
    assert SkipSpaces(u) == u && u[0] == '-' by {
      assert u[0] == '-';
    }
  }

  /** `atoi` reads back a decimal number, with or without a minus sign, and
      ignores whatever non-digit follows it. */
  lemma AtoiOfDecimal(n: nat, rest: string)
    requires rest == [] || !IsDigit(rest[0])
    ensures Atoi(Decimal(n) + rest) == n
    ensures Atoi("-" + Decimal(n) + rest) == -(n as int)
  {
    DecimalRoundTrip(n);
    AtoiOfDigits(Decimal(n), rest);
    AtoiOfNegatedDigits(Decimal(n), rest);
  }

  /** `parseIntInString` at the end of a prefix without NUL is `atoi` of
      the rest. */
  lemma ParseIntInStringOfSuffix(prefix: string, t: string)
    requires '\0' !in prefix && t != []
    ensures ParseIntInString(prefix + t, |prefix|) == Atoi(t)
  {
    assert (prefix + t)[|prefix|..] == t && (prefix + t)[..|prefix|] == prefix;
  }

  /** `parseIntInString` of a command that continues, from the index, with
      an integer in decimal (and then nothing, or a non-digit) gives that
      integer. */
  lemma ParseIntInStringOfDecimal(prefix: string, n: int, rest: string)
    requires '\0' !in prefix
    requires rest == [] || !IsDigit(rest[0])
    ensures ParseIntInString(prefix + (SignedDecimal(n) + rest), |prefix|) == n
  {
    AtoiOfSignedDecimal(n, rest);
    ParseIntInStringOfSuffix(prefix, SignedDecimal(n) + rest);
  }

  /** `atoi` reads back an integer written in decimal. */
  lemma AtoiOfSignedDecimal(n: int, rest: string)
    requires rest == [] || !IsDigit(rest[0])
    ensures Atoi(SignedDecimal(n) + rest) == n
  {
    if n < 0 {
      AtoiOfDecimal(-n, rest);
    } else {
      AtoiOfDecimal(n, rest);
    }
  }

  // ---------------------------------------------------------------------------
  //  The NUL that ends a C string
  // ---------------------------------------------------------------------------

  /** `atoi`'s white space skipping stops at a NUL, and keeps no NUL before it. */
  lemma {:induction false} SkipSpacesBeforeNul(u: string, t: string)
    requires '\0' !in u
    ensures SkipSpaces(u + ['\0'] + t) == SkipSpaces(u) + ['\0'] + t
    ensures '\0' !in SkipSpaces(u)
  {
    var w := u + ['\0'] + t;
    if u != [] && IsSpace(u[0]) {
      assert w[1..] == u[1..] + ['\0'] + t;
      assert '\0' !in u[1..] by {
        assert forall k | 0 <= k < |u[1..]| :: u[1..][k] == u[k + 1];
      }
      SkipSpacesBeforeNul(u[1..], t);
    } else {
      assert w[0] == if u == [] then '\0' else u[0];
    }
  }

  /** `atoi`'s digit scan stops at a NUL. */
  lemma {:induction false} DigitRunBeforeNul(v: string, t: string)
    requires '\0' !in v
    ensures DigitRun(v + ['\0'] + t) == DigitRun(v)
  {
    var w := v + ['\0'] + t;
    if v != [] && IsDigit(v[0]) {
      assert w[1..] == v[1..] + ['\0'] + t;
      assert '\0' !in v[1..] by {
        assert forall k | 0 <= k < |v[1..]| :: v[1..][k] == v[k + 1];
      }
      DigitRunBeforeNul(v[1..], t);
    } else {
      assert w[0] == if v == [] then '\0' else v[0];
    }
  }

  /** The value of the leading digits is the same up to a NUL. */
  lemma LeadingValueBeforeNul(v: string, t: string)
    requires '\0' !in v
    ensures LeadingValue(v + ['\0'] + t) == LeadingValue(v)
  {
    DigitRunBeforeNul(v, t);
    var n := DigitRun(v);
    assert (v + ['\0'] + t)[..n] == v[..n];
  }

  /** `atoi` reads nothing after a NUL. */
  lemma AtoiStopsAtNul(u: string, t: string)
    requires '\0' !in u
    ensures Atoi(u + ['\0'] + t) == Atoi(u)
  {
    SkipSpacesBeforeNul(u, t);
    var v := SkipSpaces(u);
    var w := v + ['\0'] + t;
    assert w[0] == if v == [] then '\0' else v[0];
    if v != [] && (v[0] == '-' || v[0] == '+') {
      assert w[1..] == v[1..] + ['\0'] + t;
      assert '\0' !in v[1..] by {
        assert forall k | 0 <= k < |v[1..]| :: v[1..][k] == v[k + 1];
      }
      LeadingValueBeforeNul(v[1..], t);
    } else {
      LeadingValueBeforeNul(v, t);
    }
  }

  /** `strlen` of a command cut short by a NUL is the length before the NUL. */
  lemma StrlenBeforeNul(s: string, t: string)
    requires '\0' !in s
    ensures Strlen(s + ['\0'] + t) == Strlen(s) == |s|
    ensures CStr(s + ['\0'] + t) == CStr(s) == s
  {
    var w := s + ['\0'] + t;
    var n := Strlen(w);
    assert w[|s|] == '\0' && w[..|s|] == s;
  }

  /** `parseBoolInString` reads the same flags up to a NUL, and none after it. */
  lemma ParseBoolBeforeNul(s: string, t: string, i: nat)
    requires '\0' !in s
    ensures ParseBoolInString(s + ['\0'] + t, i) == ParseBoolInString(s, i)
  {
    var w := s + ['\0'] + t;
    if i < |s| {
      assert w[i] == s[i] && w[..i] == s[..i];
    } else if i == |s| {
      assert w[i] == '\0';
    } else if i < |w| {
      assert w[..i][|s|] == '\0';
    }
  }

  /** `parseIntInString` reads the same number up to a NUL, and 0 after it. */
  lemma ParseIntBeforeNul(s: string, t: string, i: nat)
    requires '\0' !in s
    ensures ParseIntInString(s + ['\0'] + t, i) == ParseIntInString(s, i)
  {
    var w := s + ['\0'] + t;
    if i < |s| {
      assert w[..i] == s[..i];
      assert w[i..] == s[i..] + ['\0'] + t;
      assert '\0' !in s[i..] by {
        assert forall k | 0 <= k < |s[i..]| :: s[i..][k] == s[i + k];
      }
      AtoiStopsAtNul(s[i..], t);
    } else if i == |s| {
      assert w[..i] == s && w[i..][0] == '\0';
    } else if i < |w| {
      assert w[..i][|s|] == '\0';
    }
  }

  /** The firmware reads a command only up to its first NUL: whatever follows
      a NUL is ignored, as C's string functions ignore it. */
  lemma NulEndsTheCommand(s: string, t: string)
    requires '\0' !in s
    ensures ParseCommand(s + ['\0'] + t) == ParseCommand(s)
  {
    var w := s + ['\0'] + t;
    StrlenBeforeNul(s, t);
    ParseBoolBeforeNul(s, t, 1);
    ParseBoolBeforeNul(s, t, 2);
    ParseBoolBeforeNul(s, t, 3);
    ParseIntBeforeNul(s, t, 4);
    assert w[0] == if s == [] then '\0' else s[0];
    assert |s| >= 1 ==> w[1] == if |s| == 1 then '\0' else s[1];
  }

  // ---------------------------------------------------------------------------
  //  Command dispatch
  // ---------------------------------------------------------------------------

  /** A command whose C string is not "id?" or "r", and that starts with
      none of "a", "b", "v1", "v2" and "p", changes nothing and produces
      nothing. The host's poll "?" is such a command. */
  lemma UnmatchedCommandIsIgnored(m: Machine, s: string, now: U32)
    requires CStr(s) != "id?" && CStr(s) != "r"
    requires s == [] || (s[0] != 'a' && s[0] != 'b' && s[0] != 'p')
    requires !StartsWith2(s, 'v', '1') && !StartsWith2(s, 'v', '2')
    ensures Dispatch(m, Some(s), now) == Step(m, [])
    ensures Dispatch(m, Some("?"), now) == Step(m, [])
  {
    assert "?"[..1] == "?";
    assert CStr("?") == "?" && "?" != "id?" && "?" != "r" && "?"[0] == '?';
  }

  /** "v1", "v2" and "p" commands change their own request field and nothing
      else; the flag is read right after the prefix. */
  lemma SingleActuatorCommands(m: Machine, s: string, now: U32)
    requires StartsWith2(s, 'v', '1') || StartsWith2(s, 'v', '2') || StartsWith(s, 'p')
    ensures var d := Dispatch(m, Some(s), now);
      && d.events == []
      && d.m.(request := m.request) == m
      && (StartsWith2(s, 'v', '1') ==> d.m.request == m.request.(valve1 := |s| > 2 && s[2] == '1'))
      && (StartsWith2(s, 'v', '2') ==> d.m.request == m.request.(valve2 := |s| > 2 && s[2] == '1'))
      && (StartsWith(s, 'p') ==> d.m.request == m.request.(pump := |s| > 1 && s[1] == '1'))
  {
    assert s != "id?" by {
      assert "id?"[0] == 'i';
    }
  }

  /** "a" and "b" commands set all three requests from indices 1, 2 and 3;
      "b" also starts a burst now, with the length read from index 4 and
      converted to `uint32_t`; "a" leaves the burst alone. */
  lemma SetAllAndBurstCommands(m: Machine, s: string, now: U32)
    requires s != [] && (s[0] == 'a' || s[0] == 'b') && '\0' !in s
    ensures var d := Dispatch(m, Some(s), now);
      && d.events == []
      && d.m.request == Actuators(|s| > 1 && s[1] == '1', |s| > 2 && s[2] == '1', |s| > 3 && s[3] == '1')
      && d.m.state == m.state && d.m.tick == m.tick && d.m.readings == m.readings
      && (s[0] == 'a' ==> d.m.(request := m.request) == m)
      && (s[0] == 'b' ==> d.m.burst && d.m.burstStart == now
                          && d.m.burstLength == Wrap32(ParseIntInString(s, 4)))
  {
    assert s != "id?" by {
      assert "id?"[0] == 'i';
    }
  }

  // ---------------------------------------------------------------------------
  //  Bursts
  // ---------------------------------------------------------------------------

  /** A burst that has run its length ends in the same `loop()` call: every
      actuator is switched off, whatever was requested during the burst. */
  lemma ExpiredBurstSwitchesAllOff(m: Machine, now: U32, cmd: Option<string>, sensors: Readings)
    requires m.burst && Sub32(now, m.burstStart) >= m.burstLength
    requires cmd.Some? ==> !ParseCommand(cmd.value).Burst?
    ensures var r := LoopSpec(m, now, cmd, sensors);
      r.m.state == ALL_OFF && r.m.request == ALL_OFF && !r.m.burst
  {
  }

  /** Before its length has elapsed a burst keeps going and, without new
      commands, the actuators keep their requested states. */
  lemma RunningBurstHolds(m: Machine, now: U32, sensors: Readings)
    requires m.burst && Sub32(now, m.burstStart) < m.burstLength
    ensures var r := LoopSpec(m, now, None, sensors);
      r.m.burst && r.m.state == m.request && r.m.request == m.request
  {
  }

  /** A burst of length 0 is cancelled in the `loop()` call that receives it,
      before the grant step: all actuators end up off and, if they were off,
      no pin is written. */
  lemma ZeroLengthBurstIsCancelled(m: Machine, now: U32, s: string, sensors: Readings)
    requires ParseCommand(s).Burst? && Wrap32(ParseCommand(s).length) == 0
    ensures var r := LoopSpec(m, now, Some(s), sensors);
      && r.m.state == ALL_OFF && !r.m.burst
      && (m.state == ALL_OFF ==> forall e | e in r.events :: !e.PinWrite?)
  {
    var d := Dispatch(Begin(m, now), Some(s), now);
    assert BurstExpired(d.m, now);
    var g := Grant(EndBurst(d.m, now), now);
    if m.state == ALL_OFF {
      assert g.events == [];
    }
  }

  /** A burst whose length, converted to `uint32_t`, is not zero (a negative
      `atoi` value included) starts in the `loop()` call that receives it: the
      actuators of its profile are switched on, all others off, and the burst
      is running from `now` for that converted length. */
  lemma BurstCommandStarts(m: Machine, now: U32, s: string, profile: Actuators, length: int,
                           sensors: Readings)
    requires ParseCommand(s) == Burst(profile, length) && Wrap32(length) != 0
    ensures var r := LoopSpec(m, now, Some(s), sensors);
      && r.m.state == profile && r.m.burst
      && r.m.burstStart == now && r.m.burstLength == Wrap32(length)
  {
    var d := Dispatch(Begin(m, now), Some(s), now);
    assert Sub32(now, now) == 0;
    assert !BurstExpired(d.m, now);
  }

  // ---------------------------------------------------------------------------
  //  The grant step
  // ---------------------------------------------------------------------------

  /** Outside an expiring burst, a "v1" command decides valve 1's state at
      the end of that `loop()` call. */
  lemma Valve1CommandTakesEffect(m: Machine, now: U32, s: string, on: bool, sensors: Readings)
    requires ParseCommand(s) == SetValve1(on) && !BurstExpired(m, now)
    ensures LoopSpec(m, now, Some(s), sensors).m.state.valve1 == on
  {
    var d := Dispatch(Begin(m, now), Some(s), now);
    assert d.m.request.valve1 == on && !BurstExpired(d.m, now);
  }

  /** A report event shows the actuator states `s`; other events show nothing. */
  predicate ShowsState(e: Event, s: Actuators)
  {
    e.Report? ==>
      && |e.values| == 10
      && e.values[1] == BoolField(s.valve1)
      && e.values[2] == BoolField(s.valve2)
      && e.values[3] == BoolField(s.pump)
  }

  /** The grant step's report carries the states it grants. */
  lemma GrantReportsGrantedState(m: Machine, now: U32)
    ensures var g := Grant(m, now);
      forall e | e in g.events :: ShowsState(e, g.m.state)
  {
    var g := Grant(m, now);
    assert ShowsState(ReportOf(g.m, now), g.m.state);
  }

  /** The tick leaves the actuators alone, and its report carries their states. */
  lemma AcquireReportsState(m: Machine, now: U32, sensors: Readings)
    ensures var a := Acquire(m, now, sensors);
      a.m.state == m.state && forall e | e in a.events :: ShowsState(e, m.state)
  {
    var a := Acquire(m, now, sensors);
    assert ShowsState(ReportOf(a.m, now), m.state);
  }

  /** Every report of the burst check, the grant step and the tick carries
      the actuator states they end with. */
  lemma SettleReportsFinalState(m: Machine, now: U32, sensors: Readings)
    ensures var r := Settle(m, now, sensors);
      forall e | e in r.events :: ShowsState(e, r.m.state)
  {
    var g := Grant(EndBurst(m, now), now);
    GrantReportsGrantedState(EndBurst(m, now), now);
    AcquireReportsState(g.m, now, sensors);
  }

  /** Every report sent during one `loop()` call carries the actuator states
      the call ends with. */
  lemma ReportsCarryFinalState(m: Machine, now: U32, cmd: Option<string>, sensors: Readings)
    ensures var r := LoopSpec(m, now, cmd, sensors);
      forall e | e in r.events :: ShowsState(e, r.m.state)
  {
    var d := Dispatch(Begin(m, now), cmd, now);
    SettleReportsFinalState(d.m, now, sensors);
  }

  // ---------------------------------------------------------------------------
  //  The acquisition tick
  // ---------------------------------------------------------------------------

  /** Wrapping subtraction after advancing the subtrahend by `k`. */
  lemma Sub32AfterAdvance(a: U32, b: U32, k: U32)
    requires Sub32(a, b) >= k
    ensures Sub32(a, Add32(b, k)) == Sub32(a, b) - k
  {
    var d := Sub32(a, b);
    if a >= b {
      assert d == a - b;
      assert Add32(b, k) == b + k;
    } else {
      assert d == a - b + TWO_32;
      if b + k < TWO_32 {
        assert Add32(b, k) == b + k;
        assert a - (b + k) < 0;
      } else {
        assert Add32(b, k) == b + k - TWO_32;
      }
    }
  }

  /** Strict-interval time keeping: `tick` advances by one period, not to
      `now`, so a `loop()` that is late by two or more periods leaves the next
      tick already due, and the missed ticks are caught up one per call. */
  lemma LateTickStaysDue(m: Machine, now: U32, sensors: Readings)
    requires Sub32(now, m.tick) >= 2 * DAQ_PERIOD
    ensures var a := Acquire(m, now, sensors);
      TickDue(a.m, now) && Sub32(now, a.m.tick) == Sub32(now, m.tick) - DAQ_PERIOD
  {
    Sub32AfterAdvance(now, m.tick, DAQ_PERIOD);
  }
}
