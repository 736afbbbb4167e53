/**
 * The TDK Lambda G30 controller: a session over one transport port that
 * tracks whether it is connected and whether the output is on, keeps
 * client-side voltage and current ceilings, and turns every operation into
 * the exact lines it writes to the port and the replies it reads back.
 *
 * Every device operation except the identification query and the raw query
 * is refused with "not connected", before any I/O, unless the session is
 * connected and its port exists and is open. Set-points are checked against
 * the ceilings before the connection is.
 */
module Controller {
  import opened Wrappers
  import opened G30Types
  import opened PowerSupply
  import opened Text
  import opened Decimal
  import opened Codec
  import opened Transport

  // ------------------------------------------------ effects on the port

  /** A guarded command: when ready, exactly line was written and the call passed; otherwise nothing happened. */
  predicate Commanded(s: Option<PortState>, t: Option<PortState>, ready: bool, line: string, r: Outcome<Fault>)
  {
    if ready then s.Some? && t.Some? && Wrote(s.value, t.value, [line]) && r == Pass
    else t == s && r == Fail(NotConnected)
  }

  /** A guarded text query: when ready, line was written, one read was served, and the reply came back trimmed. */
  predicate Queried(s: Option<PortState>, t: Option<PortState>, ready: bool, timeout: int, line: string,
                    r: Result<string, Fault>)
  {
    if ready then
      s.Some? && t.Some? && Exchanged(s.value, t.value, [line], [timeout], Rest(s.value.replies))
      && r == QueryResult(Answer(s.value.replies))
    else t == s && r == Err(NotConnected)
  }

  /** A guarded numeric query: as a text query, with the trimmed reply parsed as a number. */
  predicate NumberQueried(s: Option<PortState>, t: Option<PortState>, ready: bool, timeout: int, line: string,
                          r: Result<real, Fault>)
  {
    if ready then
      s.Some? && t.Some? && Exchanged(s.value, t.value, [line], [timeout], Rest(s.value.replies))
      && r == NumericResult(Answer(s.value.replies))
    else t == s && r == Err(NotConnected)
  }

  /** A set-point command: refused before any I/O when validation fails, otherwise a guarded command writing its line. */
  predicate SetDone(s: Option<PortState>, t: Option<PortState>, ready: bool, q: Quantity, value: real, limit: real,
                    r: Outcome<Fault>)
  {
    if Validate(q, value, limit).Fail? then t == s && r == Validate(q, value, limit)
    else Commanded(s, t, ready, SetLine(SetPrefix(q), value), r)
  }

  /** The outcome of a ramp whose plan was cut at index k: passed when the whole plan went out, otherwise the refusal at k. */
  function RampOutcome(q: Quantity, plan: seq<real>, limit: real): (r: Outcome<Fault>)
    ensures r.Pass? <==> FirstInvalid(q, plan, limit) == |plan|
    ensures r.Fail? ==> r == Validate(q, plan[FirstInvalid(q, plan, limit)], limit)
  {
    var k := FirstInvalid(q, plan, limit);
    if k == |plan| then Pass else Validate(q, plan[k], limit)
  }

  /**
   * A ramp towards target: the target is validated, then the rate, then the
   * connection, all before any I/O; then one set-point query, and the plan's
   * set commands up to the first one validation refuses.
   */
  predicate Ramped(s: Option<PortState>, t: Option<PortState>, ready: bool, timeout: int, q: Quantity,
                   target: real, rate: real, limit: real, r: Outcome<Fault>)
  {
    if Validate(q, target, limit).Fail? then t == s && r == Validate(q, target, limit)
    else if rate <= 0.0 then t == s && r == Fail(NonPositiveRampRate)
    else if !ready then t == s && r == Fail(NotConnected)
    else
      s.Some? && t.Some?
      && var query := Frame(LevelQuery(q));
      match NumericResult(Answer(s.value.replies))
      case Err(e) =>
        r == Fail(e) && Exchanged(s.value, t.value, [query], [timeout], Rest(s.value.replies))
      case Ok(start) =>
        var plan := RampPlan(start, target, rate);
        r == RampOutcome(q, plan, limit)
        && Exchanged(s.value, t.value, [query] + SetLines(SetPrefix(q), plan[..FirstInvalid(q, plan, limit)]),
                     [timeout], Rest(s.value.replies))
  }

  /** measurePower's exchange: "MEAS:VOLT?", then "MEAS:CURR?" only after a good voltage reading; the product of the two. */
  predicate PowerRead(s: Option<PortState>, t: Option<PortState>, ready: bool, timeout: int, r: Result<real, Fault>)
  {
    if !ready then t == s && r == Err(NotConnected)
    else
      s.Some? && t.Some?
      && var replies := s.value.replies;
      var voltage := NumericResult(Answer(replies));
      r == PowerOf(voltage, NumericResult(Answer(Rest(replies))))
      && if voltage.Err? then Exchanged(s.value, t.value, ["MEAS:VOLT?\n"], [timeout], Rest(replies))
         else Exchanged(s.value, t.value, ["MEAS:VOLT?\n", "MEAS:CURR?\n"], [timeout, timeout], Rest(Rest(replies)))
  }

  /**
   * getStatus's exchange: "OUTP?", then "STAT:QUES?" only after a good answer;
   * a failure in either is swallowed into the snapshot filled in so far.
   */
  predicate StatusRead(s: Option<PortState>, t: Option<PortState>, ready: bool, timeout: int,
                       r: Result<PowerSupplyStatus, Fault>)
  {
    if !ready then t == s && r == Err(NotConnected)
    else
      s.Some? && t.Some?
      && var replies := s.value.replies;
      var output := OutputResult(Answer(replies));
      r == Ok(StatusOf(output, NumericResult(Answer(Rest(replies)))))
      && if output.Err? then Exchanged(s.value, t.value, ["OUTP?\n"], [timeout], Rest(replies))
         else Exchanged(s.value, t.value, ["OUTP?\n", "STAT:QUES?\n"], [timeout, timeout], Rest(Rest(replies)))
  }

  /** Having written the set lines of the first i levels and then that of the next one, the first i + 1 are written. */
  lemma WroteOneMore(s: PortState, m: PortState, t: PortState, prefix: string, levels: seq<real>, i: nat)
    requires i < |levels|
    requires Wrote(s, m, SetLines(prefix, levels[..i]))
    requires Wrote(m, t, [SetLine(prefix, levels[i])])
    ensures Wrote(s, t, SetLines(prefix, levels[..i + 1]))
  {
    SetLinesSnoc(prefix, levels, i);
    Associative(s.written, SetLines(prefix, levels[..i]), [SetLine(prefix, levels[i])]);
  }

  /**
   * One set command of the ramp loop, for the level after the i accepted
   * ones: when it passes its line is appended, and when it is refused the
   * loop stops where validation first refuses.
   */
  lemma RampStep(q: Quantity, levels: seq<real>, limit: real, i: nat, s: PortState, m: PortState, t: PortState,
                 r: Outcome<Fault>)
    requires i < |levels|
    requires forall j :: 0 <= j < i ==> Validate(q, levels[j], limit).Pass?
    requires Wrote(s, m, SetLines(SetPrefix(q), levels[..i]))
    requires SetDone(Some(m), Some(t), true, q, levels[i], limit, r)
    ensures r.Pass? ==> Wrote(s, t, SetLines(SetPrefix(q), levels[..i + 1]))
                        && forall j :: 0 <= j < i + 1 ==> Validate(q, levels[j], limit).Pass?
    ensures r.Fail? ==> Wrote(s, t, SetLines(SetPrefix(q), levels[..FirstInvalid(q, levels, limit)]))
                        && r == RampOutcome(q, levels, limit)
  {
    if r.Pass? {
      WroteOneMore(s, m, t, SetPrefix(q), levels, i);
    } else {
      FirstInvalidAt(q, levels, limit, i);
    }
  }

  /** When every level passed, the loop wrote all their lines and the ramp so far passed. */
  lemma RampStepsDone(q: Quantity, levels: seq<real>, limit: real)
    requires forall j :: 0 <= j < |levels| ==> Validate(q, levels[j], limit).Pass?
    ensures FirstInvalid(q, levels, limit) == |levels| && levels[..|levels|] == levels
    ensures RampOutcome(q, levels, limit) == Pass
  {
    FirstInvalidAt(q, levels, limit, |levels|);
  }

  /** A ramp cut short among the intermediate set-points is cut at the same place once the target is appended. */
  lemma RampCut(q: Quantity, levels: seq<real>, target: real, limit: real, s: PortState, t: PortState)
    requires RampOutcome(q, levels, limit).Fail?
    requires Wrote(s, t, SetLines(SetPrefix(q), levels[..FirstInvalid(q, levels, limit)]))
    ensures var plan := levels + [target];
      Wrote(s, t, SetLines(SetPrefix(q), plan[..FirstInvalid(q, plan, limit)]))
      && RampOutcome(q, levels, limit) == RampOutcome(q, plan, limit)
  {
    var plan := levels + [target];
    var k := FirstInvalid(q, levels, limit);
    FirstInvalidSnoc(q, levels, target, limit);
    assert plan[..k] == levels[..k];
    assert plan[k] == levels[k];
  }

  /**
   * After every intermediate set-point went out, the set command for the
   * target completes the ramp: its line is appended when it passes, and its
   * outcome is the ramp's.
   */
  lemma RampTail(q: Quantity, levels: seq<real>, target: real, limit: real, s: PortState, m: PortState,
                 t: PortState, r: Outcome<Fault>)
    requires RampOutcome(q, levels, limit).Pass?
    requires Wrote(s, m, SetLines(SetPrefix(q), levels[..FirstInvalid(q, levels, limit)]))
    requires SetDone(Some(m), Some(t), true, q, target, limit, r)
    ensures var plan := levels + [target];
      Wrote(s, t, SetLines(SetPrefix(q), plan[..FirstInvalid(q, plan, limit)]))
      && r == RampOutcome(q, plan, limit)
  {
    var plan := levels + [target];
    var n := |levels|;
    FirstInvalidSnoc(q, levels, target, limit);
    assert plan[..n] == levels[..n];
    if r.Pass? {
      WroteOneMore(s, m, t, SetPrefix(q), plan, n);
      assert plan[..n + 1] == plan;
    }
  }

  /** measurePower's value from the two readings, taken voltage first; the first failure is the result. */
  function PowerOf(voltage: Result<real, Fault>, current: Result<real, Fault>): (r: Result<real, Fault>)
    ensures r.Ok? <==> voltage.Ok? && current.Ok?
    ensures r.Ok? ==> r.value == voltage.value * current.value
    ensures voltage.Err? ==> r == Err(voltage.error)
    ensures voltage.Ok? && current.Err? ==> r == Err(current.error)
  {
    match voltage
    case Err(e) => Err(e)
    case Ok(v) =>
      match current
      case Err(e) => Err(e)
      case Ok(c) => Ok(v * c)
  }

  /**
   * With the first two scripted lines reading as a and b, measurePower's value
   * is a * b: the first line is the voltage, the second the current.
   */
  lemma PowerOfReadings(x: string, y: string, a: real, b: real)
    requires NumericResult(Ok(x)) == Ok(a) && NumericResult(Ok(y)) == Ok(b)
    ensures PowerOf(NumericResult(Answer([Line(x), Line(y)])), NumericResult(Answer(Rest([Line(x), Line(y)]))))
            == Ok(a * b)
  {
    assert Answer([Line(x), Line(y)]) == Ok(x);
    assert Answer(Rest([Line(x), Line(y)])) == Ok(y) by {
      assert Rest([Line(x), Line(y)]) == [Line(y)];
    }
    PowerOfOk(a, b);
  }

  lemma PowerOfOk(a: real, b: real)
    ensures PowerOf(Ok(a), Ok(b)) == Ok(a * b)
  {
    var r := PowerOf(Ok(a), Ok(b));
    assert r.Ok? && r.value == a * b;
  }

  // ------------------------------------- the guard of the two raw queries

  /** How a connection guard ends: the call goes on, it throws "not connected", or it dereferences a null port. */
  datatype GuardOutcome = Proceed | Refuse | NullDereference

  /**
   * The guard of getIdentification and sendQuery as written,
   * `!isConnected() && !commPort_->isOpen()`, evaluated left to right: the
   * second operand dereferences the port whenever the first is true.
   */
  function QueryGuardAsWritten(connected: bool, hasPort: bool, portOpen: bool): (g: GuardOutcome)
    ensures g == NullDereference <==> !hasPort
  {
    if connected && hasPort && portOpen then Proceed
    else if !hasPort then NullDereference
    else if portOpen then Proceed
    else Refuse
  }

  /** The guard the model uses: go on exactly when a port exists and is open, as every other guard treats a missing port. */
  function QueryGuard(hasPort: bool, portOpen: bool): (g: GuardOutcome)
    ensures g != NullDereference
    ensures g == Proceed <==> hasPort && portOpen
  {
    if hasPort && portOpen then Proceed else Refuse
  }

  /** On a moved-from controller (no port), connect() or getIdentification() dereferences the null port. */
  lemma MovedFromQueryDereferencesNull()
    ensures QueryGuardAsWritten(false, false, false) == NullDereference
    ensures QueryGuard(false, false) == Refuse
  {
  }

  /** Wherever a port exists, the corrected guard decides exactly as the written one. */
  lemma QueryGuardAgreesWithPort(connected: bool, portOpen: bool)
    ensures QueryGuardAsWritten(connected, true, portOpen) == QueryGuard(true, portOpen)
  {
  }

  // ---------------------------------------------------------- the session

  class TdkLambdaG30 {
    /** The transport; null once the controller has been moved from. */
    var port: Port?
    var config: G30Config
    var connected: bool
    /** The output state as last commanded; the device's own state is what isOutputEnabled asks for. */
    var outputEnabled: bool
    /** Client-side ceilings that setVoltage and setCurrent enforce. */
    var maxVoltage: real
    var maxCurrent: real

    /** A connected session has a port, and both ceilings are positive. */
    ghost predicate Valid()
      reads this
    {
      (connected ==> port != null) && maxVoltage > 0.0 && maxCurrent > 0.0
    }

    /** The constructor taking an injected port. */
    constructor (port: Port?, config: G30Config)
      ensures Valid()
      ensures this.port == port && this.config == config
      ensures !connected && !outputEnabled
      ensures maxVoltage == InitialMaxVoltage && maxCurrent == InitialMaxCurrent
    {
      this.port := port;
      this.config := config;
      connected := false;
      outputEnabled := false;
      maxVoltage := InitialMaxVoltage;
      maxCurrent := InitialMaxCurrent;
    }

    /** isConnected: the session was connected and its port exists and is open. */
    predicate IsConnected()
      reads this, port
      ensures IsConnected() ==> connected && port != null && port.open
      ensures !IsConnected() ==> !connected || port == null || !port.open
    {
      connected && port != null && port.open
    }

    /** A port exists and is open (the session need not be connected). */
    predicate PortOpen()
      reads this, port
    {
      port != null && port.open
    }

    /** The port as it can be observed now; None once the controller has been moved from. */
    function Snapshot(): Option<PortState>
      reads this, port
    {
      if port == null then None else Some(port.State())
    }

    /** The ceiling that applies to q. */
    function Limit(q: Quantity): real
      reads this
    {
      match q
      case Voltage => maxVoltage
      case Current => maxCurrent
    }

    // ------------------------------------------------------ lifecycle

    /**
     * connect: nothing when already connected; otherwise ask for the
     * identification, and on a non-empty answer become connected, reset the
     * device and clear its status. An empty answer or a failure closes the
     * port and leaves the session disconnected.
     */
    method Connect() returns (r: Outcome<Fault>)
      requires Valid()
      modifies this`connected, this`outputEnabled, port
      ensures Valid()
      ensures old(connected) ==> r == Pass && connected && outputEnabled == old(outputEnabled) && Snapshot() == old(Snapshot())
      ensures !old(connected) && !old(PortOpen()) ==>
        r == Fail(ConnectionFailed(NotConnected)) && !connected && outputEnabled == old(outputEnabled) && Snapshot() == old(Snapshot())
      ensures !old(connected) && old(PortOpen()) ==>
        port != null && port.replies == Rest(old(port.replies))
        && port.timeouts == old(port.timeouts) + [config.timeoutMs]
        && var id := QueryResult(Answer(old(port.replies)));
        if id.Ok? && id.value != "" then
          r == Pass && connected && !outputEnabled && port.open
          && port.written == old(port.written) + ["*IDN?\n", ResetLine, ClearLine]
        else
          r == Fail(ConnectionFailed(if id.Err? then id.error else NoIdentification))
          && !connected && outputEnabled == old(outputEnabled) && !port.open
          && port.written == old(port.written) + ["*IDN?\n"]
    {
      if connected {
        return Pass;
      }
      var id := GetIdentification();
      if id.Err? {
        Disconnect();
        return Fail(ConnectionFailed(id.error));
      }
      if id.value == "" {
        Disconnect();
        return Fail(ConnectionFailed(NoIdentification));
      }
      connected := true;
      // Both pass: the session is connected over an open port.
      var reset := Reset();
      var cleared := ClearProtection();
      AppendThree(old(port.written), "*IDN?\n", ResetLine, ClearLine);
      return Pass;
    }

    /** disconnect: close the port when there is one, and leave the session disconnected. */
    method Disconnect()
      requires Valid()
      modifies this`connected, port
      ensures Valid() && !connected
      ensures port != null ==>
        !port.open && port.written == old(port.written)
        && port.replies == old(port.replies) && port.timeouts == old(port.timeouts)
    {
      if port != null {
        port.Close();
      }
      connected := false;
    }

    /**
     * The destructor: when the session believes it is connected, turn the
     * output off and then disconnect; a failure of the first step is
     * swallowed and skips the second.
     */
    method Destroy()
      requires Valid()
      modifies this`connected, this`outputEnabled, port
      ensures Valid()
      ensures old(IsConnected()) ==>
        !connected && !outputEnabled && !port.open
        && port.written == old(port.written) + [OutputOffLine]
        && port.replies == old(port.replies) && port.timeouts == old(port.timeouts)
      ensures !old(IsConnected()) ==>
        connected == old(connected) && outputEnabled == old(outputEnabled) && Snapshot() == old(Snapshot())
    {
      if connected {
        var off := EnableOutput(false);
        if off.Pass? {
          Disconnect();
        }
      }
    }

    /** The move constructor: take over other's port and state; other keeps no port and is not connected. */
    constructor Move(other: TdkLambdaG30)
      requires other.Valid()
      modifies other`port, other`connected
      ensures Valid() && other.Valid()
      ensures port == old(other.port) && config == old(other.config)
      ensures connected == old(other.connected) && outputEnabled == old(other.outputEnabled)
      ensures maxVoltage == old(other.maxVoltage) && maxCurrent == old(other.maxCurrent)
      ensures other.port == null && !other.connected
    {
      port := other.port;
      config := other.config;
      connected := other.connected;
      outputEnabled := other.outputEnabled;
      maxVoltage := other.maxVoltage;
      maxCurrent := other.maxCurrent;
      new;
      other.port := null;
      other.connected := false;
    }

    /** Move assignment: as the move constructor, and nothing at all on self-assignment. */
    method MoveAssign(other: TdkLambdaG30)
      requires Valid() && other.Valid()
      modifies this, other`port, other`connected
      ensures Valid() && other.Valid()
      ensures other == this ==> unchanged(this)
      ensures other != this ==>
        port == old(other.port) && config == old(other.config)
        && connected == old(other.connected) && outputEnabled == old(other.outputEnabled)
        && maxVoltage == old(other.maxVoltage) && maxCurrent == old(other.maxCurrent)
        && other.port == null && !other.connected
    {
      if other != this {
        port := other.port;
        config := other.config;
        connected := other.connected;
        outputEnabled := other.outputEnabled;
        maxVoltage := other.maxVoltage;
        maxCurrent := other.maxCurrent;
        other.port := null;
        other.connected := false;
      }
    }

    // ------------------------------------------------------ output state

    /** enableOutput: write "OUTP ON" or "OUTP OFF" and record the state without reading it back. */
    method EnableOutput(enable: bool) returns (r: Outcome<Fault>)
      modifies this`outputEnabled, port
      ensures Commanded(old(Snapshot()), Snapshot(), old(IsConnected()), OutputLine(enable), r)
      ensures outputEnabled == if old(IsConnected()) then enable else old(outputEnabled)
    {
      if !IsConnected() {
        return Fail(NotConnected);
      }
      var sent := port.Write(OutputLine(enable));
      outputEnabled := enable;
      return Pass;
    }

    /** isOutputEnabled: ask "OUTP?"; on means the trimmed reply is "1" or "ON". */
    method IsOutputEnabled() returns (r: Result<bool, Fault>)
      modifies port
      ensures old(IsConnected()) ==>
        port != null && Exchanged(old(port.State()), port.State(), [Frame(OutputQuery)], [config.timeoutMs], Rest(old(port.replies)))
        && r == OutputResult(Answer(old(port.replies)))
      ensures !old(IsConnected()) ==> Snapshot() == old(Snapshot()) && r == Err(NotConnected)
    {
      if !IsConnected() {
        return Err(NotConnected);
      }
      var reply := SendQuery(OutputQuery);
      r := match reply
        case Ok(text) => Ok(OutputStateOf(text))
        case Err(e) => Err(e);
    }

    /** reset: write "*RST" and record the output as off. */
    method Reset() returns (r: Outcome<Fault>)
      modifies this`outputEnabled, port
      ensures Commanded(old(Snapshot()), Snapshot(), old(IsConnected()), ResetLine, r)
      ensures outputEnabled == if old(IsConnected()) then false else old(outputEnabled)
    {
      if !IsConnected() {
        return Fail(NotConnected);
      }
      var sent := port.Write(ResetLine);
      outputEnabled := false;
      return Pass;
    }

    // ------------------------------------------------------ set-points

    /** setVoltage / setCurrent: validate against the ceiling, then the connection, then write one set command. */
    method SetLevel(q: Quantity, value: real) returns (r: Outcome<Fault>)
      modifies port
      ensures SetDone(old(Snapshot()), Snapshot(), old(IsConnected()), q, value, Limit(q), r)
    {
      r := Validate(q, value, Limit(q));
      if r.Fail? {
        return;
      }
      if !IsConnected() {
        return Fail(NotConnected);
      }
      var sent := port.Write(SetLine(SetPrefix(q), value));
    }

    method SetVoltage(voltage: real) returns (r: Outcome<Fault>)
      modifies port
      ensures SetDone(old(Snapshot()), Snapshot(), old(IsConnected()), Voltage, voltage, maxVoltage, r)
    {
      r := SetLevel(Voltage, voltage);
    }

    method SetCurrent(current: real) returns (r: Outcome<Fault>)
      modifies port
      ensures SetDone(old(Snapshot()), Snapshot(), old(IsConnected()), Current, current, maxCurrent, r)
    {
      r := SetLevel(Current, current);
    }

    /** A query whose trimmed reply is parsed as a number; refused unless connected. */
    method QueryNumber(query: string) returns (r: Result<real, Fault>)
      requires |query| > 0
      modifies port
      ensures NumberQueried(old(Snapshot()), Snapshot(), old(IsConnected()), config.timeoutMs, Frame(query), r)
    {
      if !IsConnected() {
        return Err(NotConnected);
      }
      var reply := SendQuery(query);
      r := match reply
        case Ok(text) => ParseNumericResponse(text)
        case Err(e) => Err(e);
    }

    /** getVoltage: the programmed voltage, from "VOLT?". */
    method GetVoltage() returns (r: Result<real, Fault>)
      modifies port
      ensures NumberQueried(old(Snapshot()), Snapshot(), old(IsConnected()), config.timeoutMs, "VOLT?\n", r)
    {
      assert Frame(LevelQuery(Voltage)) == "VOLT?\n";
      r := QueryNumber(LevelQuery(Voltage));
    }

    /** getCurrent: the programmed current limit, from "CURR?". */
    method GetCurrent() returns (r: Result<real, Fault>)
      modifies port
      ensures NumberQueried(old(Snapshot()), Snapshot(), old(IsConnected()), config.timeoutMs, "CURR?\n", r)
    {
      assert Frame(LevelQuery(Current)) == "CURR?\n";
      r := QueryNumber(LevelQuery(Current));
    }

    /** measureVoltage: the measured output voltage, from "MEAS:VOLT?". */
    method MeasureVoltage() returns (r: Result<real, Fault>)
      modifies port
      ensures NumberQueried(old(Snapshot()), Snapshot(), old(IsConnected()), config.timeoutMs, "MEAS:VOLT?\n", r)
    {
      assert Frame(MeasureQuery(Voltage)) == "MEAS:VOLT?\n";
      r := QueryNumber(MeasureQuery(Voltage));
    }

    /** measureCurrent: the measured output current, from "MEAS:CURR?". */
    method MeasureCurrent() returns (r: Result<real, Fault>)
      modifies port
      ensures NumberQueried(old(Snapshot()), Snapshot(), old(IsConnected()), config.timeoutMs, "MEAS:CURR?\n", r)
    {
      assert Frame(MeasureQuery(Current)) == "MEAS:CURR?\n";
      r := QueryNumber(MeasureQuery(Current));
    }

    /** measurePower: measured voltage times measured current, from two separate queries in that order. */
    method MeasurePower() returns (r: Result<real, Fault>)
      modifies port
      ensures PowerRead(old(Snapshot()), Snapshot(), old(IsConnected()), config.timeoutMs, r)
    {
      if !IsConnected() {
        return Err(NotConnected);
      }
      ghost var replies := port.replies;
      var voltage := MeasureVoltage();
      ghost var afterVoltage := port.written;
      if voltage.Err? {
        return Err(voltage.error);
      }
      var current := MeasureCurrent();
      AppendTwo(old(port.written), "MEAS:VOLT?\n", "MEAS:CURR?\n");
      AppendTwo(old(port.timeouts), config.timeoutMs, config.timeoutMs);
      r := PowerOf(voltage, current);
    }

    /**
     * setVoltageWithRamp / setCurrentWithRamp: validate the target, refuse a
     * rate that is not positive, read the present set-point, then issue the
     * intermediate set-points (floor(|target - start| / rate * 10) of them,
     * each (target - start) / steps beyond the last) and finally the target.
     */
    method RampLevel(q: Quantity, target: real, rate: real) returns (r: Outcome<Fault>)
      modifies port
      ensures Ramped(old(Snapshot()), Snapshot(), old(IsConnected()), config.timeoutMs, q, target, rate, Limit(q), r)
    {
      r := Validate(q, target, Limit(q));
      if r.Fail? {
        return;
      }
      if rate <= 0.0 {
        return Fail(NonPositiveRampRate);
      }
      var got := QueryNumber(LevelQuery(q));
      if got.Err? {
        return Fail(got.error);
      }
      var start := got.value;
      var steps := RampCount(start, target, rate);
      var increment := RampIncrement(start, target, rate);
      ghost var plan := RampPlan(start, target, rate);
      r := RampFrom(q, start, increment, steps, target);
      Associative(old(port.written), [Frame(LevelQuery(q))], SetLines(SetPrefix(q), plan[..FirstInvalid(q, plan, Limit(q))]));
    }

    /**
     * The rest of a ramp, from the set-point just read: n intermediate
     * set-points, each inc beyond the last, and then the target, stopping at
     * the first one validation refuses.
     */
    method RampFrom(q: Quantity, start: real, inc: real, n: nat, target: real) returns (r: Outcome<Fault>)
      requires IsConnected()
      modifies port
      ensures var plan := Advance(start, inc, n) + [target];
        Wrote(old(port.State()), port.State(), SetLines(SetPrefix(q), plan[..FirstInvalid(q, plan, Limit(q))]))
      ensures r == RampOutcome(q, Advance(start, inc, n) + [target], Limit(q))
    {
      r := Advancing(q, start, inc, n);
      if r.Fail? {
        RampCut(q, Advance(start, inc, n), target, Limit(q), old(port.State()), port.State());
        return;
      }
      ghost var mid := port.State();
      r := SetLevel(q, target);
      RampTail(q, Advance(start, inc, n), target, Limit(q), old(port.State()), mid, port.State(), r);
    }

    /**
     * The ramp loop: n set-points, each inc beyond the last, written in turn
     * until one is refused.
     */
    method Advancing(q: Quantity, start: real, inc: real, n: nat) returns (r: Outcome<Fault>)
      requires IsConnected()
      modifies port
      ensures var levels := Advance(start, inc, n);
        Wrote(old(port.State()), port.State(), SetLines(SetPrefix(q), levels[..FirstInvalid(q, levels, Limit(q))]))
      ensures r == RampOutcome(q, Advance(start, inc, n), Limit(q))
    {
      ghost var levels := Advance(start, inc, n);
      var level := start;
      var i := 0;
      while i < n
        invariant 0 <= i <= n
        invariant level == if i == 0 then start else levels[i - 1]
        invariant forall j :: 0 <= j < i ==> Validate(q, levels[j], Limit(q)).Pass?
        invariant IsConnected()
        invariant Wrote(old(port.State()), port.State(), SetLines(SetPrefix(q), levels[..i]))
      {
        level := level + inc;
        AdvanceStep(start, inc, n, i);
        ghost var mid := port.State();
        r := SetLevel(q, level);
        RampStep(q, levels, Limit(q), i, old(port.State()), mid, port.State(), r);
        if r.Fail? {
          return;
        }
        i := i + 1;
      }
      RampStepsDone(q, levels, Limit(q));
      return Pass;
    }

    method SetVoltageWithRamp(voltage: real, rampRate: real) returns (r: Outcome<Fault>)
      modifies port
      ensures Ramped(old(Snapshot()), Snapshot(), old(IsConnected()), config.timeoutMs, Voltage, voltage, rampRate, maxVoltage, r)
    {
      r := RampLevel(Voltage, voltage, rampRate);
    }

    method SetCurrentWithRamp(current: real, rampRate: real) returns (r: Outcome<Fault>)
      modifies port
      ensures Ramped(old(Snapshot()), Snapshot(), old(IsConnected()), config.timeoutMs, Current, current, rampRate, maxCurrent, r)
    {
      r := RampLevel(Current, current, rampRate);
    }

    // ------------------------------------------------------ protection

    /** setOverVoltageProtection: write "VOLT:PROT" with the level; the level is not validated. */
    method SetOverVoltageProtection(voltage: real) returns (r: Outcome<Fault>)
      modifies port
      ensures Commanded(old(Snapshot()), Snapshot(), old(IsConnected()), SetLine(ProtectionPrefix, voltage), r)
    {
      if !IsConnected() {
        return Fail(NotConnected);
      }
      var sent := port.Write(SetLine(ProtectionPrefix, voltage));
      return Pass;
    }

    /** getOverVoltageProtection: the trip level, from "VOLT:PROT?". */
    method GetOverVoltageProtection() returns (r: Result<real, Fault>)
      modifies port
      ensures NumberQueried(old(Snapshot()), Snapshot(), old(IsConnected()), config.timeoutMs, "VOLT:PROT?\n", r)
    {
      assert Frame(ProtectionQuery) == "VOLT:PROT?\n";
      r := QueryNumber(ProtectionQuery);
    }

    /** clearProtection: write "*CLS"; whether the faults cleared is not checked. */
    method ClearProtection() returns (r: Outcome<Fault>)
      modifies port
      ensures Commanded(old(Snapshot()), Snapshot(), old(IsConnected()), ClearLine, r)
    {
      if !IsConnected() {
        return Fail(NotConnected);
      }
      var sent := port.Write(ClearLine);
      return Pass;
    }

    // ------------------------------------------------------ information

    /** getIdentification: the "*IDN?" reply; it only needs an open port, not a connected session. */
    method GetIdentification() returns (r: Result<string, Fault>)
      modifies port
      ensures Queried(old(Snapshot()), Snapshot(), old(PortOpen()), config.timeoutMs, "*IDN?\n", r)
    {
      assert Frame(IdentityQuery) == "*IDN?\n";
      r := SendQuery(IdentityQuery);
    }

    /**
     * getStatus: the output state from "OUTP?", then the "STAT:QUES?" value
     * truncated to an integer and read as bits 0x01, 0x02 and 0x10. A failed
     * query is swallowed: the snapshot filled in so far is returned.
     */
    method GetStatus() returns (r: Result<PowerSupplyStatus, Fault>)
      modifies port
      ensures StatusRead(old(Snapshot()), Snapshot(), old(IsConnected()), config.timeoutMs, r)
    {
      if !IsConnected() {
        return Err(NotConnected);
      }
      assert Frame(OutputQuery) == "OUTP?\n" && Frame(StatusQuery) == "STAT:QUES?\n";
      ghost var replies := port.replies;
      var output := IsOutputEnabled();
      if output.Err? {
        return Ok(StatusOf(output, Err(output.error)));
      }
      var reply := SendQuery(StatusQuery);
      var value := match reply
        case Ok(text) => ParseNumericResponse(text)
        case Err(e) => Err(e);
      assert value == NumericResult(Answer(Rest(replies)));
      AppendTwo(old(port.written), "OUTP?\n", "STAT:QUES?\n");
      AppendTwo(old(port.timeouts), config.timeoutMs, config.timeoutMs);
      return Ok(StatusOf(output, value));
    }

    /** checkError: the head of the device's error queue, from "SYST:ERR?". */
    method CheckError() returns (r: Result<string, Fault>)
      modifies port
      ensures Queried(old(Snapshot()), Snapshot(), old(IsConnected()), config.timeoutMs, "SYST:ERR?\n", r)
    {
      if !IsConnected() {
        return Err(NotConnected);
      }
      assert Frame(ErrorQuery) == "SYST:ERR?\n";
      r := SendQuery(ErrorQuery);
    }

    /** getCapabilities: the present ceilings, their product as the power ceiling, one channel, OVP and OCP only. */
    function GetCapabilities(): (c: PowerSupplyCapabilities)
      reads this
      ensures c.maxVoltage == maxVoltage && c.maxCurrent == maxCurrent
      ensures c.maxPower == c.maxVoltage * c.maxCurrent
      ensures Valid() ==> c.maxPower > 0.0
      ensures c.numberOfChannels == DefaultCapabilities().numberOfChannels
      ensures c.supportsOVP && c.supportsOCP
      ensures !c.supportsRemoteSensing && !c.supportsOPP && !c.supportsSequencing
    {
      DefaultCapabilities().(maxVoltage := maxVoltage, maxCurrent := maxCurrent,
                             maxPower := maxVoltage * maxCurrent,
                             supportsOVP := true, supportsOCP := true)
    }

    function GetVendor(): (v: Vendor)
      ensures v == TdkLambda
    {
      TdkLambda
    }

    function GetModel(): (m: string)
      ensures m == "G30"
    {
      "G30"
    }

    // ------------------------------------------------------ ceilings

    /** getMaxVoltage: the voltage ceiling, always positive. */
    function GetMaxVoltage(): (v: real)
      reads this
      ensures v == maxVoltage
      ensures Valid() ==> v > 0.0
    {
      maxVoltage
    }

    /** getMaxCurrent: the current ceiling, always positive. */
    function GetMaxCurrent(): (c: real)
      reads this
      ensures c == maxCurrent
      ensures Valid() ==> c > 0.0
    {
      maxCurrent
    }

    /** setMaxVoltage: a ceiling that is not positive is refused and the old one kept. */
    method SetMaxVoltage(limit: real) returns (r: Outcome<Fault>)
      requires Valid()
      modifies this`maxVoltage
      ensures Valid()
      ensures limit <= 0.0 ==> r == Fail(NonPositiveLimit(Voltage)) && maxVoltage == old(maxVoltage)
      ensures limit > 0.0 ==> r == Pass && maxVoltage == limit
    {
      if limit <= 0.0 {
        return Fail(NonPositiveLimit(Voltage));
      }
      maxVoltage := limit;
      return Pass;
    }

    /** setMaxCurrent: a ceiling that is not positive is refused and the old one kept. */
    method SetMaxCurrent(limit: real) returns (r: Outcome<Fault>)
      requires Valid()
      modifies this`maxCurrent
      ensures Valid()
      ensures limit <= 0.0 ==> r == Fail(NonPositiveLimit(Current)) && maxCurrent == old(maxCurrent)
      ensures limit > 0.0 ==> r == Pass && maxCurrent == limit
    {
      if limit <= 0.0 {
        return Fail(NonPositiveLimit(Current));
      }
      maxCurrent := limit;
      return Pass;
    }

    // ------------------------------------------------------ raw access

    /** sendCommand: write the command framed with a line feed, read nothing, answer "OK". */
    method SendCommand(command: string) returns (r: Result<string, Fault>)
      requires |command| > 0
      modifies port
      ensures old(IsConnected()) ==> port != null && Wrote(old(port.State()), port.State(), [Frame(command)]) && r == Ok("OK")
      ensures !old(IsConnected()) ==> Snapshot() == old(Snapshot()) && r == Err(NotConnected)
    {
      if !IsConnected() {
        return Err(NotConnected);
      }
      var sent := port.Write(Frame(command));
      return Ok("OK");
    }

    /** sendQuery: write the query framed with a line feed, read one reply, return it trimmed. */
    method SendQuery(query: string) returns (r: Result<string, Fault>)
      requires |query| > 0
      modifies port
      ensures Queried(old(Snapshot()), Snapshot(), old(PortOpen()), config.timeoutMs, Frame(query), r)
    {
      if QueryGuard(port != null, port != null && port.open) == Refuse {
        return Err(NotConnected);
      }
      var sent := port.Write(Frame(query));
      var raw := port.Read(config.timeoutMs);
      r := QueryResult(raw);
    }
  }
}
