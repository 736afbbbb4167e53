/**
 * The G30's line protocol as the controller speaks it: SCPI-style command
 * and query lines, the "%.3f" set-point encoding, client-side limit
 * validation, and the decoding of numeric, output-state and status replies.
 * Also the set-point plan a ramp issues.
 */
module Codec {
  import opened Wrappers
  import opened G30Types
  import opened PowerSupply
  import opened Text
  import opened Decimal

  // ---------------------------------------------------------------- framing

  /** The line sendCommand and sendQuery put on the wire: '\n' is appended unless already last. */
  function Frame(command: string): (line: string)
    requires |command| > 0
    ensures line == command || line == command + "\n"
    ensures line[|line| - 1] == '\n'
    ensures line == command <==> command[|command| - 1] == '\n'
  {
    if command[|command| - 1] != '\n' then command + "\n" else command
  }

  /** Framing a framed line changes nothing. */
  lemma FrameIdempotent(command: string)
    requires |command| > 0
    ensures Frame(Frame(command)) == Frame(command)
  {
  }

  // ------------------------------------------------------- the command set

  const OutputOnLine := "OUTP ON\n"
  const OutputOffLine := "OUTP OFF\n"
  const ResetLine := "*RST\n"
  const ClearLine := "*CLS\n"
  const OutputQuery := "OUTP?"
  const IdentityQuery := "*IDN?"
  const StatusQuery := "STAT:QUES?"
  const ErrorQuery := "SYST:ERR?"
  const ProtectionQuery := "VOLT:PROT?"
  const ProtectionPrefix := "VOLT:PROT "

  /** The line enableOutput writes. */
  function OutputLine(enable: bool): string {
    if enable then OutputOnLine else OutputOffLine
  }

  /** The prefix of the set-point command of q. */
  function SetPrefix(q: Quantity): string {
    match q
    case Voltage => "VOLT "
    case Current => "CURR "
  }

  /** The query that reads back the programmed set-point of q. */
  function LevelQuery(q: Quantity): string {
    match q
    case Voltage => "VOLT?"
    case Current => "CURR?"
  }

  /** The query that reads the measured output value of q. */
  function MeasureQuery(q: Quantity): string {
    match q
    case Voltage => "MEAS:VOLT?"
    case Current => "MEAS:CURR?"
  }

  /** s holds no line feed. */
  predicate NoLineFeed(s: string) {
    forall k :: 0 <= k < |s| ==> s[k] != '\n'
  }

  /** A value command: the prefix, the value in fixed notation with three decimals, '\n'. */
  function SetLine(prefix: string, value: real): (line: string)
    ensures |line| > |prefix| + 1 && line[|line| - 1] == '\n'
  {
    prefix + FormatFixed3(value) + "\n"
  }

  /** The three-decimal text holds no line feed: it is '-', digits and '.'. */
  lemma FixedTextIsOneLine(value: real)
    ensures NoLineFeed(FormatFixed3(value))
  {
    SignedFixedIsOneLine(value < 0.0, Milli(value));
  }

  lemma SignedFixedIsOneLine(negative: bool, m: nat)
    ensures NoLineFeed(SignedFixed(negative, m))
  {
    var sign := if negative then "-" else "";
    var w, f := NatDigits(m / 1000), Pad3(m % 1000);
    var s := SignedFixed(negative, m);
    assert s == sign + w + "." + f;
    forall k | 0 <= k < |s|
      ensures s[k] != '\n'
    {
      if k < |sign| {
        assert s[k] == '-';
      } else if k < |sign| + |w| {
        assert s[k] == w[k - |sign|];
      } else if k > |sign| + |w| {
        assert s[k] == f[k - |sign| - |w| - 1];
      }
    }
  }

  /**
   * The three-decimal text never starts or ends with a trim character: it
   * starts with '-' or a digit and ends with a digit.
   */
  lemma FixedTextHasNoEdgeSpace(value: real)
    ensures |FormatFixed3(value)| > 0 && NoEdgeSpace(FormatFixed3(value))
  {
    SignedFixedHasNoEdgeSpace(value < 0.0, Milli(value));
  }

  lemma SignedFixedHasNoEdgeSpace(negative: bool, m: nat)
    ensures |SignedFixed(negative, m)| > 0 && NoEdgeSpace(SignedFixed(negative, m))
  {
    var w, f := NatDigits(m / 1000), Pad3(m % 1000);
    var sign := if negative then "-" else "";
    var s := SignedFixed(negative, m);
    assert s == sign + w + "." + f;
    assert s[|s| - 1] == f[2];
    assert IsDigit(f[2]);
    if negative {
      assert s[0] == '-';
    } else {
      assert s[0] == w[0];
      assert IsDigit(w[0]);
    }
  }

  /**
   * The text between a value command's prefix and its line feed reads back
   * as the value rounded to three decimals.
   */
  lemma SetLineCarriesValue(prefix: string, value: real)
    ensures var line := SetLine(prefix, value);
      |line| > |prefix| && line[..|prefix|] == prefix && line[|line| - 1] == '\n'
      && ParseNumber(line[|prefix|..|line| - 1]) == Some(Round3(value))
      && NoLineFeed(line[|prefix|..|line| - 1])
  {
    FixedTextIsOneLine(value);
    var text := FormatFixed3(value);
    var line := SetLine(prefix, value);
    FixedTextHasNoEdgeSpace(value);
    assert line == prefix + text + "\n";
    assert line[..|prefix|] == prefix;
    assert line[|prefix|..|line| - 1] == text;
    FormatThenParse(value);
  }

  /** The command setVoltage(12.5) writes. */
  lemma SetLineExample()
    ensures SetLine(SetPrefix(Voltage), 12.5) == "VOLT 12.500\n"
  {
    assert Milli(12.5) == 12500;
    TwelveAndAHalf();
    assert FormatFixed3(12.5) == "12.500";
  }

  /** The digits of 12500 thousandths. */
  lemma TwelveAndAHalf()
    ensures SignedFixed(false, 12500) == "12.500"
  {
    TwelveDigits();
    FiveHundredDigits();
    assert FixedDigits(12500) == NatDigits(12) + "." + Pad3(500);
  }

  lemma TwelveDigits()
    ensures NatDigits(12) == "12"
  {
    assert NatDigits(1) == [DigitChar(1)] == "1";
    assert NatDigits(12) == NatDigits(1) + [DigitChar(2)];
  }

  lemma FiveHundredDigits()
    ensures Pad3(500) == "500"
  {
    assert Pad3(500) == [DigitChar(5), DigitChar(0), DigitChar(0)];
  }

  // ------------------------------------------------------------- validation

  /**
   * validateVoltage / validateCurrent: a negative value is refused first, then
   * one above the limit; anything in [0, limit] passes.
   */
  function Validate(q: Quantity, value: real, limit: real): (r: Outcome<Fault>)
    ensures r.Pass? <==> 0.0 <= value <= limit
    ensures value < 0.0 ==> r == Fail(Negative(q))
    ensures 0.0 <= value && limit < value ==> r == Fail(AboveLimit(q))
  {
    if value < 0.0 then Fail(Negative(q))
    else if value > limit then Fail(AboveLimit(q))
    else Pass
  }

  // -------------------------------------------------------- numeric replies

  /**
   * parseNumericResponse: std::stod of the trimmed reply; on failure the
   * error carries the reply as it was passed in.
   */
  function ParseNumericResponse(response: string): (r: Result<real, Fault>)
    ensures r.Ok? <==> ParseNumber(Trim(response)).Some?
    ensures r.Ok? ==> Some(r.value) == ParseNumber(Trim(response))
    ensures r.Err? ==> r.error == ParseFailed(response)
  {
    match ParseNumber(Trim(response))
    case Some(v) => Ok(v)
    case None => Err(ParseFailed(response))
  }

  /** A reply that echoes a set-point in the controller's own encoding, padded by trim characters, reads back as that set-point to three decimals. */
  lemma EchoedValueParses(a: string, value: real, b: string)
    requires AllTrimSpace(a) && AllTrimSpace(b)
    ensures ParseNumericResponse(a + FormatFixed3(value) + b) == Ok(Round3(value))
  {
    FixedTextHasNoEdgeSpace(value);
    TrimPadded(a, FormatFixed3(value), b);
    FormatThenParse(value);
  }

  /** A numeric reply padded by trim characters reads as its text alone. */
  lemma NumericResultOfPadded(a: string, t: string, b: string)
    requires AllTrimSpace(a) && AllTrimSpace(b) && NoEdgeSpace(t)
    ensures NumericResult(Ok(a + t + b)) == ParseNumericResponse(t)
  {
    TrimPadded(a, t, b);
  }

  /** A numeric query answered with a set-point in the controller's own encoding, padded by trim characters, reads back that set-point to three decimals. */
  lemma EchoedReplyReads(a: string, value: real, b: string)
    requires AllTrimSpace(a) && AllTrimSpace(b)
    ensures NumericResult(Ok(a + FormatFixed3(value) + b)) == Ok(Round3(value))
  {
    var text := FormatFixed3(value);
    FixedTextHasNoEdgeSpace(value);
    TrimPadded(a, text, b);
    TrimIdempotent(a + text + b);
    FormatThenParse(value);
  }

  /** A reply whose text starts with a letter, such as "ERR", is refused with the reply in the message. */
  lemma NonNumericReplyFails(a: string, t: string, b: string)
    requires AllTrimSpace(a) && AllTrimSpace(b) && NoEdgeSpace(t)
    requires |t| > 0 && IsLetter(t[0])
    ensures ParseNumericResponse(a + t + b) == Err(ParseFailed(a + t + b))
  {
    TrimPadded(a, t, b);
    LetterLedIsNotANumber(t);
  }

  /** The text of a query result as sendQuery returns it: the raw reply, trimmed. */
  function QueryResult(raw: Result<string, Fault>): (r: Result<string, Fault>)
    ensures raw.Err? ==> r == raw
    ensures raw.Ok? ==> r.Ok? && NoEdgeSpace(r.value) && |r.value| <= |raw.value|
    ensures raw.Ok? ==> r == Ok(Trim(raw.value))
  {
    match raw
    case Ok(s) => Ok(Trim(s))
    case Err(e) => Err(e)
  }

  /** A reply that is a clean text padded by trim characters comes back as exactly that text. */
  lemma QueryResultOfPadded(a: string, t: string, b: string)
    requires AllTrimSpace(a) && AllTrimSpace(b) && NoEdgeSpace(t)
    ensures QueryResult(Ok(a + t + b)) == Ok(t)
  {
    TrimPadded(a, t, b);
  }

  /** A numeric query (getVoltage, measureCurrent, ...) : the trimmed reply, parsed. */
  function NumericResult(raw: Result<string, Fault>): (r: Result<real, Fault>)
    ensures raw.Err? ==> r == Err(raw.error)
    ensures raw.Ok? && r.Err? ==> r.error == ParseFailed(Trim(raw.value))
    ensures raw.Ok? ==> (r.Ok? <==> ParseNumber(Trim(raw.value)).Some?)
  {
    match QueryResult(raw)
    case Ok(s) =>
      TrimIdempotent(raw.value);
      ParseNumericResponse(s)
    case Err(e) => Err(e)
  }

  // --------------------------------------------------- output-state replies

  /** s is t with only trim characters around it. */
  ghost predicate PaddedBy(s: string, t: string) {
    exists i :: 0 <= i <= |s| - |t| && s[i..i + |t|] == t
                && AllTrimSpace(s[..i]) && AllTrimSpace(s[i + |t|..])
  }

  /** For a t that starts and ends with a kept character, trim gives t exactly on the padded forms of t. */
  lemma TrimCharacterized(s: string, t: string)
    requires NoEdgeSpace(t) && |t| > 0
    ensures Trim(s) == t <==> PaddedBy(s, t)
  {
    TrimmedIsPadded(s);
    if PaddedBy(s, t) {
      PaddedTrims(s, t);
    }
  }

  /** Every string is its trimmed text with trim characters around it. */
  lemma TrimmedIsPadded(s: string)
    ensures PaddedBy(s, Trim(s))
  {
  }

  lemma PaddedTrims(s: string, t: string)
    requires NoEdgeSpace(t) && PaddedBy(s, t)
    ensures Trim(s) == t
  {
    var i :| 0 <= i <= |s| - |t| && s[i..i + |t|] == t
             && AllTrimSpace(s[..i]) && AllTrimSpace(s[i + |t|..]);
    SplitAround(s, i, |t|);
    TrimPadded(s[..i], t, s[i + |t|..]);
  }

  /** A string is what comes before a slice, the slice, and what comes after it. */
  lemma SplitAround(s: string, i: nat, n: nat)
    requires i + n <= |s|
    ensures s == s[..i] + s[i..i + n] + s[i + n..]
  {
  }

  /**
   * isOutputEnabled's reading of the OUTP? reply: on exactly when the reply
   * is "1" or "ON" with only trim characters around it; nothing else is on.
   */
  function OutputStateOf(reply: string): (on: bool)
    ensures on <==> PaddedBy(reply, "1") || PaddedBy(reply, "ON")
  {
    TrimCharacterized(reply, "1");
    TrimCharacterized(reply, "ON");
    Trim(reply) == "1" || Trim(reply) == "ON"
  }

  /** Worked reply: "1\n" means on. */
  lemma OutputOneExample()
    ensures OutputStateOf("1\n")
  {
    TrimPadded("", "1", "\n");
    assert "" + "1" + "\n" == "1\n";
  }

  /** Worked reply: " ON \r\n" means on. */
  lemma OutputOnExample()
    ensures OutputStateOf(" ON \r\n")
  {
    TrimPadded(" ", "ON", " \r\n");
    assert " " + "ON" + " \r\n" == " ON \r\n";
  }

  /** Worked reply: "OFF\n" means off. */
  lemma OutputOffExample()
    ensures !OutputStateOf("OFF\n")
  {
    TrimPadded("", "OFF", "\n");
    assert "" + "OFF" + "\n" == "OFF\n";
  }

  /** Worked reply: "0\n" means off. */
  lemma OutputZeroExample()
    ensures !OutputStateOf("0\n")
  {
    TrimPadded("", "0", "\n");
    assert "" + "0" + "\n" == "0\n";
  }

  /** The OUTP? query's outcome. */
  function OutputResult(raw: Result<string, Fault>): (r: Result<bool, Fault>)
    ensures raw.Err? ==> r == Err(raw.error)
    ensures raw.Ok? ==> r == Ok(OutputStateOf(raw.value))
  {
    match QueryResult(raw)
    case Ok(s) =>
      TrimIdempotent(raw.value);
      Ok(OutputStateOf(s))
    case Err(e) => Err(e)
  }

  // --------------------------------------------------------- status replies

  /** static_cast<int> of a double: truncation toward zero (the 32-bit range is not modelled). */
  function TruncateToInt(x: real): (n: int)
    ensures Abs(n as real) <= Abs(x) < Abs(n as real) + 1.0
    ensures n > 0 ==> x > 0.0
    ensures n < 0 ==> x < 0.0
  {
    if x >= 0.0 then x.Floor else -((-x).Floor)
  }

  /** The integer with only bit k set. */
  function Pow2(k: nat): (p: nat)
    ensures p >= 1
  {
    if k == 0 then 1 else 2 * Pow2(k - 1)
  }

  /** Bit j + k is bit j shifted left by k places. */
  lemma {:induction false} Pow2Add(j: nat, k: nat)
    ensures Pow2(j + k) == Pow2(j) * Pow2(k)
  {
    if k > 0 {
      Pow2Add(j, k - 1);
      assert Pow2(j + k) == 2 * Pow2(j + k - 1);
    }
  }

  /** The status masks 0x01, 0x02 and 0x10 are bits 0, 1 and 4. */
  lemma StatusMasks()
    ensures Pow2(0) == 0x01 && Pow2(1) == 0x02 && Pow2(4) == 0x10
  {
    Pow2Add(2, 2);
  }

  /**
   * (v & Pow2(k)) != 0 on a two's complement int: Dafny's division by a
   * positive divisor rounds down, so this holds for negative v as well.
   */
  predicate BitSet(v: int, k: nat) {
    (v / Pow2(k)) % 2 == 1
  }

  /**
   * getStatus's snapshot from the output state and the STAT:QUES? value:
   * bit 0x01 is over-voltage, 0x02 over-current, 0x10 over-temperature.
   */
  function DecodeStatus(outputEnabled: bool, statValue: int): (s: PowerSupplyStatus)
    ensures s.outputEnabled == outputEnabled
    ensures s.overVoltageProtection == BitSet(statValue, 0)
    ensures s.overCurrentProtection == BitSet(statValue, 1)
    ensures s.overTemperature == BitSet(statValue, 4)
    ensures !s.overPowerProtection && !s.remoteSensing && !s.ccMode && !s.cvMode
  {
    DefaultStatus().(outputEnabled := outputEnabled,
                     overVoltageProtection := statValue % 2 == 1,
                     overCurrentProtection := (statValue / 2) % 2 == 1,
                     overTemperature := (statValue / 16) % 2 == 1)
  }

  /** Worked values: 0x13 raises all three flags, 0x04 none, and -1 (all bits) all three. */
  lemma DecodeStatusExamples()
    ensures var s := DecodeStatus(true, 0x13);
      s.overVoltageProtection && s.overCurrentProtection && s.overTemperature
    ensures !DecodeStatus(false, 4).AnyFlag()
    ensures var s := DecodeStatus(false, -1);
      s.overVoltageProtection && s.overCurrentProtection && s.overTemperature
  {
    assert Pow2(4) == 16 by {
      assert Pow2(2) == 4;
    }
  }

  /**
   * The snapshot getStatus returns: when the OUTP? query fails nothing is
   * filled in; when only the STAT:QUES? query fails, just the output state.
   */
  function StatusOf(output: Result<bool, Fault>, stat: Result<real, Fault>): (s: PowerSupplyStatus)
    ensures output.Err? ==> s == DefaultStatus()
    ensures output.Ok? && stat.Err? ==> s == DefaultStatus().(outputEnabled := output.value)
    ensures output.Ok? && stat.Ok? ==> s == DecodeStatus(output.value, TruncateToInt(stat.value))
  {
    match output
    case Err(_) => DefaultStatus()
    case Ok(on) =>
      match stat
      case Err(_) => DefaultStatus().(outputEnabled := on)
      case Ok(v) => DecodeStatus(on, TruncateToInt(v))
  }

  /** However the queries go, the four flags getStatus never reads stay at their defaults. */
  lemma StatusUntouchedFields(output: Result<bool, Fault>, stat: Result<real, Fault>)
    ensures var s := StatusOf(output, stat);
      !s.overPowerProtection && !s.remoteSensing && !s.ccMode && !s.cvMode
  {
  }

  // ------------------------------------------------------------------ ramps

  /** The ramp's step count as a real: |target - start| / rate * 10. */
  function RampSteps(start: real, target: real, rate: real): (steps: real)
    requires rate > 0.0
    ensures steps >= 0.0
    ensures steps == 0.0 <==> start == target
  {
    Abs(target - start) / rate * 10.0
  }

  /** static_cast<int>(steps): the number of intermediate set-points. */
  function RampCount(start: real, target: real, rate: real): (n: nat)
    requires rate > 0.0
    ensures n as real <= RampSteps(start, target, rate) < n as real + 1.0
  {
    RampSteps(start, target, rate).Floor
  }

  /** (target - start) / steps, the amount each intermediate set-point advances; 0 when there is no distance. */
  function RampIncrement(start: real, target: real, rate: real): (inc: real)
    requires rate > 0.0
    ensures start == target ==> inc == 0.0
    ensures target > start ==> inc > 0.0
    ensures target < start ==> inc < 0.0
  {
    if start == target then 0.0 else (target - start) / RampSteps(start, target, rate)
  }

  /** n set-points, the first inc beyond from and each next one inc beyond the last: the ramp loop's cur += step. */
  function Advance(from: real, inc: real, n: nat): (vs: seq<real>)
    ensures |vs| == n
    ensures n > 0 ==> vs[0] == from + inc
    decreases n
  {
    if n == 0 then [] else [from + inc] + Advance(from + inc, inc, n - 1)
  }

  /** The k-th advanced set-point is k + 1 increments beyond from. */
  lemma {:induction false} AdvanceAt(from: real, inc: real, n: nat, k: nat)
    requires k < n
    ensures Advance(from, inc, n)[k] == from + (k + 1) as real * inc
    decreases n
  {
    if k > 0 {
      AdvanceAt(from + inc, inc, n - 1, k - 1);
      assert Advance(from, inc, n)[k] == Advance(from + inc, inc, n - 1)[k - 1];
      assert (k + 1) as real * inc == k as real * inc + inc;
    }
  }

  /** Each advanced set-point is one increment beyond the one before it. */
  lemma {:induction false} AdvanceNext(from: real, inc: real, n: nat, k: nat)
    requires k + 1 < n
    ensures Advance(from, inc, n)[k + 1] == Advance(from, inc, n)[k] + inc
    decreases n
  {
    if k > 0 {
      AdvanceNext(from + inc, inc, n - 1, k - 1);
    }
  }

  /** Each advanced set-point is one increment beyond the one before it, the first one beyond from. */
  lemma AdvanceStep(from: real, inc: real, n: nat, i: nat)
    requires i < n
    ensures Advance(from, inc, n)[i] == (if i == 0 then from else Advance(from, inc, n)[i - 1]) + inc
  {
    if i > 0 {
      AdvanceNext(from, inc, n, i - 1);
    }
  }

  /** The set-points a ramp issues: the intermediate ones, then the target itself. */
  function RampPlan(start: real, target: real, rate: real): (plan: seq<real>)
    requires rate > 0.0
    ensures |plan| == RampCount(start, target, rate) + 1
    ensures plan[|plan| - 1] == target
  {
    Advance(start, RampIncrement(start, target, rate), RampCount(start, target, rate)) + [target]
  }

  /** steps increments make up the whole distance. */
  lemma RampIncrementSpans(start: real, target: real, rate: real)
    requires rate > 0.0
    ensures RampSteps(start, target, rate) * RampIncrement(start, target, rate) == target - start
  {
  }

  /** Each increment is a tenth of the rate, towards the target. */
  lemma RampIncrementIsTenthOfRate(start: real, target: real, rate: real)
    requires rate > 0.0 && start != target
    ensures target > start ==> RampIncrement(start, target, rate) == rate / 10.0
    ensures target < start ==> RampIncrement(start, target, rate) == -(rate / 10.0)
  {
    var d := target - start;
    var steps := RampSteps(start, target, rate);
    assert steps == Abs(d) * 10.0 / rate;
    var inc := RampIncrement(start, target, rate);
    assert inc * steps == d;
    if d > 0.0 {
      assert inc * (d * 10.0 / rate) == d;
      TenthOfRate(inc, d, rate);
    } else {
      assert (-inc) * (-d * 10.0 / rate) == -d;
      TenthOfRate(-inc, -d, rate);
    }
  }

  /** From inc * (d * 10 / rate) == d with d > 0, inc is rate / 10. */
  lemma TenthOfRate(inc: real, d: real, rate: real)
    requires rate > 0.0 && d > 0.0 && inc * (d * 10.0 / rate) == d
    ensures inc == rate / 10.0
  {
    assert inc * d * 10.0 == d * rate;
    assert (inc * 10.0) * d == rate * d;
  }

  /** The absolute change from one set-point to the next. */
  function Jump(a: real, b: real): real {
    Abs(b - a)
  }

  /** v lies between a and b, whichever of them is the larger. */
  predicate Within(v: real, a: real, b: real) {
    (a <= v <= b) || (b <= v <= a)
  }

  /** Where n increments take from. */
  function AdvanceEnd(from: real, inc: real, n: nat): real
    decreases n
  {
    if n == 0 then from else AdvanceEnd(from + inc, inc, n - 1)
  }

  /** n increments add up to n times the increment. */
  lemma {:induction false} AdvanceEndValue(from: real, inc: real, n: nat)
    ensures AdvanceEnd(from, inc, n) == from + n as real * inc
    decreases n
  {
    if n > 0 {
      AdvanceEndValue(from + inc, inc, n - 1);
      OneStepFurther(from, inc, n);
    }
  }

  /** Taking one increment first leaves n - 1 of them to go. */
  lemma OneStepFurther(from: real, inc: real, n: nat)
    requires n > 0
    ensures (from + inc) + (n - 1) as real * inc == from + n as real * inc
  {
    assert n as real * inc == (n - 1) as real * inc + inc;
  }

  /** The first increment does not overshoot where all n of them end. */
  lemma FirstIncrementWithin(from: real, inc: real, n: nat)
    requires n > 0
    ensures Within(from + inc, from, AdvanceEnd(from, inc, n))
  {
    AdvanceEndValue(from, inc, n);
    PartOfSpan(1.0, n as real, inc);
  }

  /** Every set-point of the plan lies between the starting value and the target. */
  lemma RampPlanBetween(start: real, target: real, rate: real)
    requires rate > 0.0
    ensures forall v :: v in RampPlan(start, target, rate) ==> Within(v, start, target)
  {
    var n := RampCount(start, target, rate);
    var inc := RampIncrement(start, target, rate);
    RampIncrementSpans(start, target, rate);
    PartOfSpan(n as real, RampSteps(start, target, rate), inc);
    AdvanceEndValue(start, inc, n);
    AdvanceBetween(start, inc, n, target);
  }

  /**
   * When n increments take from towards target without passing it, every
   * advanced set-point lies between from and target.
   */
  lemma {:induction false} AdvanceBetween(from: real, inc: real, n: nat, target: real)
    requires Within(AdvanceEnd(from, inc, n), from, target)
    ensures forall v :: v in Advance(from, inc, n) + [target] ==> Within(v, from, target)
    decreases n
  {
    if n > 0 {
      var next := from + inc;
      FirstIncrementWithin(from, inc, n);
      AdvanceBetween(next, inc, n - 1, target);
      assert Advance(from, inc, n) + [target] == [next] + (Advance(next, inc, n - 1) + [target]);
    } else {
      assert Advance(from, inc, n) + [target] == [target];
    }
  }

  /** j of s increments, for 0 <= j <= s, lie between 0 and s increments. */
  lemma PartOfSpan(j: real, s: real, inc: real)
    requires 0.0 <= j <= s
    ensures Within(j * inc, 0.0, s * inc)
  {
    if inc >= 0.0 {
      assert j * inc <= s * inc;
    } else {
      assert s * inc <= j * inc;
    }
  }

  /** Beginning at from, each value of vs is within bound of the one before it. */
  predicate StepsWithin(from: real, vs: seq<real>, bound: real)
    decreases |vs|
  {
    vs == [] || (Jump(from, vs[0]) <= bound && StepsWithin(vs[0], vs[1..], bound))
  }

  /** No set-point of the plan, the first one included, is further than rate / 10 from the one before. */
  lemma RampJumpsBounded(start: real, target: real, rate: real)
    requires rate > 0.0
    ensures StepsWithin(start, RampPlan(start, target, rate), rate / 10.0)
  {
    var n := RampCount(start, target, rate);
    var inc := RampIncrement(start, target, rate);
    var bound := rate / 10.0;
    IncrementWithinTenth(start, target, rate);
    EndWithinTenth(start, target, rate);
    AdvanceJumps(start, inc, n, target, bound);
  }

  /** No increment is larger than a tenth of the rate. */
  lemma IncrementWithinTenth(start: real, target: real, rate: real)
    requires rate > 0.0
    ensures Abs(RampIncrement(start, target, rate)) <= rate / 10.0
  {
    if start != target {
      RampIncrementIsTenthOfRate(start, target, rate);
    }
  }

  /** Where the intermediate set-points end is less than a tenth of the rate from the target. */
  lemma EndWithinTenth(start: real, target: real, rate: real)
    requires rate > 0.0
    ensures Jump(AdvanceEnd(start, RampIncrement(start, target, rate), RampCount(start, target, rate)), target)
            <= rate / 10.0
  {
    var n := RampCount(start, target, rate);
    var inc := RampIncrement(start, target, rate);
    AdvanceEndValue(start, inc, n);
    if start != target {
      LastJumpBounded(start, target, rate);
    } else {
      assert n == 0;
    }
  }

  /**
   * Advancing by at most bound each time and ending no further than bound
   * from target, no jump of the plan, the first included, exceeds bound.
   */
  lemma {:induction false} AdvanceJumps(from: real, inc: real, n: nat, target: real, bound: real)
    requires Abs(inc) <= bound
    requires Jump(AdvanceEnd(from, inc, n), target) <= bound
    ensures StepsWithin(from, Advance(from, inc, n) + [target], bound)
    decreases n
  {
    if n > 0 {
      var next := from + inc;
      AdvanceJumps(next, inc, n - 1, target, bound);
      var plan := Advance(from, inc, n) + [target];
      assert plan == [next] + (Advance(next, inc, n - 1) + [target]);
      assert plan[1..] == Advance(next, inc, n - 1) + [target];
    } else {
      var plan := Advance(from, inc, n) + [target];
      assert plan == [target];
      assert plan[1..] == [];
    }
  }

  /** The final set to the target moves less than one increment from the last intermediate set-point (or from the start). */
  lemma LastJumpBounded(start: real, target: real, rate: real)
    requires rate > 0.0 && start != target
    ensures var n := RampCount(start, target, rate);
      Jump(start + n as real * RampIncrement(start, target, rate), target) < rate / 10.0
  {
    var n := RampCount(start, target, rate);
    var steps := RampSteps(start, target, rate);
    var inc := RampIncrement(start, target, rate);
    RampIncrementSpans(start, target, rate);
    RampIncrementIsTenthOfRate(start, target, rate);
    var rest := steps - n as real;
    assert 0.0 <= rest < 1.0;
    assert target - (start + n as real * inc) == rest * inc;
    RemainderSmall(rest, inc);
  }

  lemma RemainderSmall(rest: real, inc: real)
    requires 0.0 <= rest < 1.0 && inc != 0.0
    ensures Abs(rest * inc) < Abs(inc)
  {
    if inc > 0.0 {
      assert rest * inc < 1.0 * inc;
    } else {
      assert rest * (-inc) < 1.0 * (-inc);
    }
  }

  /** Ramping 5 V to 15 V at 2 V/s takes 50 intermediate 0.2 V steps. */
  lemma RampExample()
    ensures RampCount(5.0, 15.0, 2.0) == 50
    ensures RampIncrement(5.0, 15.0, 2.0) == 0.2
  {
    assert RampSteps(5.0, 15.0, 2.0) == 50.0;
  }

  /** The lines a sequence of set-points is written as. */
  function SetLines(prefix: string, values: seq<real>): (lines: seq<string>)
    ensures |lines| == |values|
  {
    seq(|values|, k requires 0 <= k < |values| => SetLine(prefix, values[k]))
  }

  /** Appending a value moves the first refusal only when everything before passed: past the value if it passes too. */
  lemma FirstInvalidSnoc(q: Quantity, values: seq<real>, last: real, limit: real)
    ensures var k := FirstInvalid(q, values, limit);
      FirstInvalid(q, values + [last], limit)
      == if k < |values| || Validate(q, last, limit).Fail? then k else k + 1
  {
    var k := FirstInvalid(q, values, limit);
    var all := values + [last];
    assert forall j :: 0 <= j < |values| ==> all[j] == values[j];
    if k < |values| || Validate(q, last, limit).Fail? {
      FirstInvalidAt(q, all, limit, k);
    } else {
      FirstInvalidAt(q, all, limit, k + 1);
    }
  }

  /** Writing one more set-point appends its line. */
  lemma SetLinesSnoc(prefix: string, values: seq<real>, k: nat)
    requires k < |values|
    ensures SetLines(prefix, values[..k + 1]) == SetLines(prefix, values[..k]) + [SetLine(prefix, values[k])]
  {
    var a, b := SetLines(prefix, values[..k + 1]), SetLines(prefix, values[..k]) + [SetLine(prefix, values[k])];
    assert |a| == |b|;
    forall j | 0 <= j < |a| ensures a[j] == b[j] {
      if j < k { assert values[..k + 1][j] == values[..k][j]; }
    }
  }

  /** The index of the first value validation refuses, |values| when there is none. */
  function FirstInvalid(q: Quantity, values: seq<real>, limit: real): (k: nat)
    ensures k <= |values|
    ensures forall j :: 0 <= j < k ==> Validate(q, values[j], limit).Pass?
    ensures k < |values| ==> Validate(q, values[k], limit).Fail?
  {
    if values == [] then 0
    else if Validate(q, values[0], limit).Fail? then 0
    else 1 + FirstInvalid(q, values[1..], limit)
  }

  /** When both ends of a ramp pass validation every set-point of its plan does, so the ramp is never cut short. */
  lemma RampPlanValid(q: Quantity, start: real, target: real, rate: real, limit: real)
    requires rate > 0.0
    requires Validate(q, start, limit).Pass? && Validate(q, target, limit).Pass?
    ensures FirstInvalid(q, RampPlan(start, target, rate), limit) == |RampPlan(start, target, rate)|
  {
    var plan := RampPlan(start, target, rate);
    RampPlanBetween(start, target, rate);
    forall j | 0 <= j < |plan|
      ensures Validate(q, plan[j], limit).Pass?
    {
      assert plan[j] in plan;
    }
  }

  /** The first refused value is at k when everything before k passes and k is refused or the end. */
  lemma FirstInvalidAt(q: Quantity, values: seq<real>, limit: real, k: nat)
    requires k <= |values|
    requires forall j :: 0 <= j < k ==> Validate(q, values[j], limit).Pass?
    requires k < |values| ==> Validate(q, values[k], limit).Fail?
    ensures FirstInvalid(q, values, limit) == k
  {
  }
}
