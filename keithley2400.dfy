/** The Keithley 2400 source-meter driver: a source value clamped and ranged
    before it is written, ramps between setpoints while the output is on,
    ordered mode switches, and measurements read from a comma-separated reply. */
module Keithley {
  import opened Results
  import opened Numbers
  import opened Lists
  import opened Config
  import Ramp

  const MinCurrent: real := 0.000001
  const MaxCurrent: real := 1.0

  const DefaultProtectionVoltage: real := 4.0
  const DefaultProtectionCurrent: real := 0.2
  const DefaultCurrStep: real := 0.001
  const DefaultVoltStep: real := 0.1

  const FuncKey := "SOURCE:FUNC"
  const CurrKey := "SOURCE:CURR"
  const CurrRangeKey := "SOURCE:CURR:RANGE"
  const VoltKey := "SOURCE:VOLT"
  const VoltRangeKey := "SOURCE:VOLT:RANGE"
  const OutputKey := "OUTP:STATE"
  const VoltProtKey := "VOLT:PROT"
  const CurrProtKey := "CURR:PROT"
  const TermKey := "ROUT:TERM"
  const SenseOnKey := "SENSE:FUNCTION:ON"

  /** The value `_configCurrent` sources: the SIGNED request clipped to
      [1e-6, 1], so zero and negative requests become 1e-6. */
  function ClampCurrent(x: real): real {
    Clamp(x, MinCurrent, MaxCurrent)
  }

  /** The writes of `_configCurrent(x)`: the decade range (its guard against
      zero never fails after the clip), then the clipped value. */
  function ConfigCurrentWrites(x: real): seq<Write> {
    var c := ClampCurrent(x);
    (if c != 0.0 then [Write(CurrRangeKey, Num(DecadeRange(c)))] else [])
    + [Write(CurrKey, Num(c))]
  }

  /** The writes of `_configVoltage(v)`: the decade range only for a nonzero v,
      then v itself, unclamped. */
  function ConfigVoltageWrites(v: real): seq<Write> {
    (if v != 0.0 then [Write(VoltRangeKey, Num(DecadeRange(v)))] else [])
    + [Write(VoltKey, Num(v))]
  }

  /** The writes of `_configCurrent` called on each value in turn. */
  function ConfigCurrentAll(xs: seq<real>): seq<Write>
    decreases |xs|
  {
    if xs == [] then []
    else ConfigCurrentAll(xs[..|xs| - 1]) + ConfigCurrentWrites(xs[|xs| - 1])
  }

  /** Extending the values by one appends that value's writes. */
  lemma ConfigCurrentAllStep(xs: seq<real>, i: nat, latest: real)
    requires i < |xs|
    ensures ConfigCurrentAll(xs[..i + 1]) == ConfigCurrentAll(xs[..i]) + ConfigCurrentWrites(xs[i])
    ensures Settled(latest, xs[..i + 1]) == ClampCurrent(xs[i])
  {
    assert xs[..i + 1][..i] == xs[..i];
  }

  /** `_latestCurrentVal` after `_configCurrent` is called on each value of xs. */
  function Settled(latest: real, xs: seq<real>): real {
    if xs == [] then latest else ClampCurrent(xs[|xs| - 1])
  }

  /** The values `setCurrent`/`setVoltage` pass to `_configCurrent`: the target
      alone when the output is off or ramping is disabled, else the ramp from
      start (a numpy float when numpyStart). */
  function SourcePlan(enabled: bool, step: Option<real>, start: real, numpyStart: bool, target: real): Result<seq<real>> {
    if !enabled || step.None? then Ok([target])
    else Ramp.RampPoints(start, target, step.value, numpyStart)
  }

  /** The writes of `__setSourceMode`. */
  function SourceModeWrites(isCurrentSource: bool): seq<Write> {
    if isCurrentSource then ModeWrites("CURR", "VOLT") else ModeWrites("VOLT", "CURR")
  }

  /** The six writes of `__setSourceMode` for the given source and meter names. */
  function ModeWrites(source: string, meter: string): seq<Write> {
    [ Write(FuncKey, Text(source)),
      Write("SOURCE:" + source + ":MODE", Text("FIXED")),
      Write("SENSE:FUNCTION:OFF:ALL", Nothing),
      Write(SenseOnKey, Text("\"" + meter + "\"")),
      Write("SENSE:" + meter + ":RANGE:AUTO", Text("ON")),
      Write("RES:MODE", Text("MAN")) ]
  }

  /** The writes of `setPort`: an unrecognised port writes nothing. */
  function PortWrites(port: string): seq<Write> {
    if port == "Front" then [Write(TermKey, Text("FRON"))]
    else if port == "Rear" then [Write(TermKey, Text("REAR"))]
    else []
  }

  /** The writes of `enable(False)` once its ramp to zero has run. */
  function DisableWrites(pts: seq<real>): seq<Write> {
    ConfigCurrentAll(pts) + [Write(OutputKey, Num(0.0))]
  }

  /** The writes of a successful `setCurrentMode(p)`. */
  function CurrentModeWrites(pts: seq<real>, protectionVoltage: real): seq<Write> {
    DisableWrites(pts) + SourceModeWrites(true)
    + [Write(VoltProtKey, Num(protectionVoltage))] + ConfigCurrentWrites(0.0)
  }

  /** The writes of a successful `setVoltageMode(p)`. */
  function VoltageModeWrites(pts: seq<real>, protectionCurrent: real): seq<Write> {
    DisableWrites(pts) + SourceModeWrites(false)
    + [Write(CurrProtKey, Num(protectionCurrent))] + ConfigVoltageWrites(0.0)
  }

  /** A number read from the store, under Python's comparison rules. */
  function AsNumber(v: Value): Option<real> {
    match v
    case Num(r) => Some(r)
    case Flag(b) => Some(if b then 1.0 else 0.0)
    case _ => None
  }

  /** A measured value and whether it reached the compliance limit. */
  datatype Reading = Reading(value: real, compliance: bool)

  /** Field `field` of the comma-separated reply, parsed by `parse` (Python's
      `float`), compared with the protection limit. */
  function Measure(reply: string, parse: string -> Option<real>, field: nat, limit: Value): (r: Result<Reading>)
    ensures r.Ok? <==> field < |Split(reply, ',')| && parse(Split(reply, ',')[field]).Some? && AsNumber(limit).Some?
    ensures r.Ok? ==> r.value.value == parse(Split(reply, ',')[field]).value
    ensures r.Ok? ==> (r.value.compliance <==> r.value.value >= AsNumber(limit).value)
    ensures field >= |Split(reply, ',')| ==> r == Err(IndexError)
  {
    var fields := Split(reply, ',');
    if field >= |fields| then Err(IndexError)
    else match parse(fields[field])
      case None => Err(ValueError)
      case Some(v) =>
        match AsNumber(limit)
        case None => Err(TypeError)
        case Some(p) => Ok(Reading(v, v >= p))
  }

  /** `getConfigParam` on a per-channel value takes its '&' entry. */
  function Unwrap(v: Value): (r: Result<Value>)
    ensures v.Channels? ==> (r.Ok? <==> "&" in v.entries)
    ensures v.Channels? && "&" in v.entries ==> r == Ok(v.entries["&"])
    ensures !v.Channels? ==> r == Ok(v)
  {
    match v
    case Channels(m) => if "&" in m then Ok(m["&"]) else Err(KeyError)
    case _ => Ok(v)
  }

  /** `_configCurrent` always writes the range before the value: the range is
      the least power of ten at or above the clipped value, below ten times it. */
  lemma ConfigCurrentRanged(x: real, k: int)
    ensures var ws := ConfigCurrentWrites(x); var c := ClampCurrent(x);
      && MinCurrent <= c <= MaxCurrent
      && (x < MinCurrent ==> c == MinCurrent) && (MaxCurrent < x ==> c == MaxCurrent)
      && |ws| == 2 && ws[1] == Write(CurrKey, Num(c))
      && ws[0].key == CurrRangeKey && ws[0].value.Num?
      && c <= ws[0].value.r < 10.0 * c
      && ws[0].value.r == Pow10(Decade(c))
      && (Pow10(k) >= c ==> Pow10(k) >= ws[0].value.r)
  {
    var c := ClampCurrent(x);
    DecadeRangeIsLeast(c, k);
  }

  /** `_configVoltage` writes a range exactly when the value is nonzero; then
      the range is the least power of ten at or above |v|. */
  lemma ConfigVoltageRanged(v: real, k: int)
    ensures var ws := ConfigVoltageWrites(v);
      && (v == 0.0 ==> ws == [Write(VoltKey, Num(0.0))])
      && (v != 0.0 ==>
           && |ws| == 2 && ws[1] == Write(VoltKey, Num(v))
           && ws[0].key == VoltRangeKey && ws[0].value.Num?
           && Abs(v) <= ws[0].value.r < 10.0 * Abs(v)
           && (Pow10(k) >= Abs(v) ==> Pow10(k) >= ws[0].value.r))
  {
    if v != 0.0 {
      DecadeRangeIsLeast(v, k);
    }
  }

  /** Sourcing a sequence of values writes, for each in turn, its range and then
      its clipped value. */
  lemma {:induction false} ConfigCurrentAllShape(xs: seq<real>)
    ensures var ws := ConfigCurrentAll(xs);
      && |ws| == 2 * |xs|
      && (forall i :: 0 <= i < |xs| ==>
            ws[2 * i] == Write(CurrRangeKey, Num(DecadeRange(ClampCurrent(xs[i]))))
            && ws[2 * i + 1] == Write(CurrKey, Num(ClampCurrent(xs[i]))))
    decreases |xs|
  {
    if xs != [] {
      var init, last := xs[..|xs| - 1], xs[|xs| - 1];
      ConfigCurrentAllShape(init);
      ConfigCurrentPair(last);
      var prev, pair := ConfigCurrentAll(init), ConfigCurrentWrites(last);
      var ws := prev + pair;
      assert ConfigCurrentAll(xs) == ws;
      forall i | 0 <= i < |xs|
        ensures ws[2 * i] == Write(CurrRangeKey, Num(DecadeRange(ClampCurrent(xs[i]))))
        ensures ws[2 * i + 1] == Write(CurrKey, Num(ClampCurrent(xs[i])))
      {
        var k := 2 * i;
        if i < |init| {
          assert xs[i] == init[i] && k + 1 < |prev|;
          assert ws[k] == prev[k] && ws[k + 1] == prev[k + 1];
        } else {
          assert xs[i] == last && k == |prev|;
          assert ws[k] == pair[0] && ws[k + 1] == pair[1];
        }
      }
    }
  }

  /** `_configCurrent(x)` is exactly two writes: the range, then the clipped value. */
  lemma ConfigCurrentPair(x: real)
    ensures ConfigCurrentWrites(x) ==
      [Write(CurrRangeKey, Num(DecadeRange(ClampCurrent(x)))), Write(CurrKey, Num(ClampCurrent(x)))]
  {
    assert ClampCurrent(x) >= MinCurrent;
  }

  /** Every current a ramp sources lies within the clip bounds, and it never
      writes the voltage, its range or the output state. */
  lemma RampWritesOnlyCurrent(xs: seq<real>, i: nat)
    requires i < |ConfigCurrentAll(xs)|
    ensures var w := ConfigCurrentAll(xs)[i];
      && w.key != VoltKey && w.key != VoltRangeKey && w.key != OutputKey
      && (w.key == CurrKey ==> w.value.Num? && MinCurrent <= w.value.r <= MaxCurrent)
  {
    ConfigCurrentAllShape(xs);
    var ws := ConfigCurrentAll(xs);
    var j := i / 2;
    var c := ClampCurrent(xs[j]);
    assert MinCurrent <= c <= MaxCurrent;
    if i % 2 == 0 {
      assert i == 2 * j;
      assert ws[i] == Write(CurrRangeKey, Num(DecadeRange(c)));
    } else {
      assert i == 2 * j + 1;
      assert ws[i] == Write(CurrKey, Num(c));
    }
  }

  /** With the output off or ramping disabled the target is sourced at once;
      otherwise the ramp has floor(|target - start| / step) points and ends at
      the target, so the last sourced value is the clipped target unless the
      change is smaller than the step. */
  lemma {:induction false} PlanReachesTarget(enabled: bool, step: Option<real>, start: real, numpyStart: bool, target: real, latest: real)
    requires step.Some? ==> step.value > 0.0
    ensures SourcePlan(enabled, step, start, numpyStart, target).Ok?
    ensures var pts := SourcePlan(enabled, step, start, numpyStart, target).value;
      && (!enabled || step.None? ==> pts == [target])
      && (enabled && step.Some? ==> |pts| == Ramp.StepCount(start, target, step.value))
      && (pts != [] ==> pts[|pts| - 1] == target && Settled(latest, pts) == ClampCurrent(target))
      && (pts == [] ==> Settled(latest, pts) == latest && Abs(start - target) < step.value)
  {
    if enabled && step.Some? {
      Ramp.RampReachesTarget(start, target, step.value, numpyStart);
      var pts := SourcePlan(enabled, step, start, numpyStart, target).value;
      if pts == [] {
        Ramp.FloorDivisionBounds(Abs(start - target), step.value);
      }
    }
  }

  /** Every step of a ramp moves the source by the same amount, at least the
      configured step and less than twice it. */
  lemma PlanStepBounded(start: real, numpyStart: bool, target: real, step: real, k: nat)
    requires step > 0.0
    requires SourcePlan(true, Some(step), start, numpyStart, target).Ok?
    requires k < |SourcePlan(true, Some(step), start, numpyStart, target).value|
    ensures var pts := SourcePlan(true, Some(step), start, numpyStart, target).value;
      var d := pts[k] - (if k == 0 then start else pts[k - 1]);
      step <= Abs(d) < 2.0 * step
  {
    var n := Ramp.StepCount(start, target, step);
    var pts := SourcePlan(true, Some(step), start, numpyStart, target).value;
    assert n > 0 && pts == Ramp.Linspace(start, target, n);
    var d := pts[k] - (if k == 0 then start else pts[k - 1]);
    assert d == (target - start) / n as real by {
      Ramp.LinspaceSpacing(start, target, n, k);
    }
    assert step <= Abs(target - start) / n as real < 2.0 * step by {
      Ramp.RampSpacingBounds(start, target, step);
    }
    AbsQuotient(target - start, n as real);
  }

  lemma AbsQuotient(x: real, n: real)
    requires n > 0.0
    ensures Abs(x / n) == Abs(x) / n
  {
    if x < 0.0 {
      assert x / n < 0.0;
      assert -(x / n) == (-x) / n;
    }
  }

  /** After `setCurrentMode(p)` the instrument sources current, senses voltage,
      has the output off, the voltage limit p and the minimum current sourced. */
  lemma CurrentModeOutcome(m: map<string, Value>, pts: seq<real>, p: real)
    ensures var s := Apply(m, CurrentModeWrites(pts, p));
      && OutputKey in s && s[OutputKey] == Num(0.0) && !IsOn(s[OutputKey])
      && FuncKey in s && s[FuncKey] == Text("CURR")
      && SenseOnKey in s && s[SenseOnKey] == Text("\"VOLT\"")
      && VoltProtKey in s && s[VoltProtKey] == Num(p)
      && CurrKey in s && s[CurrKey] == Num(MinCurrent)
  {
    var d, sm, pw, c := DisableWrites(pts), SourceModeWrites(true), [Write(VoltProtKey, Num(p))], ConfigCurrentWrites(0.0);
    ApplyAppend(m, d + sm + pw, c);
    ApplyAppend(m, d + sm, pw);
    ApplyAppend(m, d, sm);
    var m1 := Apply(m, d);
    DisableOutcome(m, pts);
    var m2 := Apply(m1, sm);
    SourceModeOutcome(m1, true);
    var m3 := Apply(m2, pw);
    ApplySingle(m2, pw[0]);
    ConfigCurrentOutcome(m3, 0.0);
  }

  /** After `setVoltageMode(p)` the instrument sources voltage, senses current,
      has the output off, the current limit p and zero volts sourced. */
  lemma VoltageModeOutcome(m: map<string, Value>, pts: seq<real>, p: real)
    ensures var s := Apply(m, VoltageModeWrites(pts, p));
      && OutputKey in s && s[OutputKey] == Num(0.0) && !IsOn(s[OutputKey])
      && FuncKey in s && s[FuncKey] == Text("VOLT")
      && SenseOnKey in s && s[SenseOnKey] == Text("\"CURR\"")
      && CurrProtKey in s && s[CurrProtKey] == Num(p)
      && VoltKey in s && s[VoltKey] == Num(0.0)
  {
    var d, sm, pw, v := DisableWrites(pts), SourceModeWrites(false), [Write(CurrProtKey, Num(p))], ConfigVoltageWrites(0.0);
    ApplyAppend(m, d + sm + pw, v);
    ApplyAppend(m, d + sm, pw);
    ApplyAppend(m, d, sm);
    var m1 := Apply(m, d);
    DisableOutcome(m, pts);
    var m2 := Apply(m1, sm);
    SourceModeOutcome(m1, false);
    var m3 := Apply(m2, pw);
    ApplySingle(m2, pw[0]);
    assert v == [Write(VoltKey, Num(0.0))];
    ApplySingle(m3, v[0]);
  }

  /** `enable(False)` ends with the output off. */
  lemma DisableOutcome(m: map<string, Value>, pts: seq<real>)
    ensures var s := Apply(m, DisableWrites(pts));
      OutputKey in s && s[OutputKey] == Num(0.0)
  {
    var ws := DisableWrites(pts);
    assert ws[..|ws| - 1] == ConfigCurrentAll(pts);
  }

  /** `__setSourceMode` sets the source function and the sensed quantity and
      leaves the output, the limits and the source values alone. */
  lemma SourceModeOutcome(m: map<string, Value>, isCurrentSource: bool)
    ensures var s := Apply(m, SourceModeWrites(isCurrentSource));
      && FuncKey in s && s[FuncKey] == Text(if isCurrentSource then "CURR" else "VOLT")
      && SenseOnKey in s && s[SenseOnKey] == Text(if isCurrentSource then "\"VOLT\"" else "\"CURR\"")
      && Keeps(m, s, OutputKey) && Keeps(m, s, VoltProtKey) && Keeps(m, s, CurrProtKey)
      && Keeps(m, s, CurrKey) && Keeps(m, s, VoltKey)
  {
    var ws := SourceModeWrites(isCurrentSource);
    ApplyLastWrite(m, ws, 0);
    ApplyLastWrite(m, ws, 3);
    SourceModeKeys(isCurrentSource);
    ApplyUntouched(m, ws, OutputKey);
    ApplyUntouched(m, ws, VoltProtKey);
    ApplyUntouched(m, ws, CurrProtKey);
    ApplyUntouched(m, ws, CurrKey);
    ApplyUntouched(m, ws, VoltKey);
  }

  /** The keys `__setSourceMode` writes are none of those it leaves alone. */
  lemma SourceModeKeys(isCurrentSource: bool)
    ensures forall i :: 0 <= i < |SourceModeWrites(isCurrentSource)| ==>
      var k := SourceModeWrites(isCurrentSource)[i].key;
      k != OutputKey && k != VoltProtKey && k != CurrProtKey && k != CurrKey && k != VoltKey
  {
    var ws := SourceModeWrites(isCurrentSource);
    forall i | 0 <= i < |ws|
      ensures var k := ws[i].key;
        k != OutputKey && k != VoltProtKey && k != CurrProtKey && k != CurrKey && k != VoltKey
    {
      var k := ws[i].key;
      if i == 1 || i == 4 {
        assert k[|k| - 4..] == (if i == 1 then "MODE" else "AUTO");
      }
    }
  }

  /** `_configCurrent(x)` sets the clipped current and its range, nothing else. */
  lemma ConfigCurrentOutcome(m: map<string, Value>, x: real)
    ensures var s := Apply(m, ConfigCurrentWrites(x));
      && CurrKey in s && s[CurrKey] == Num(ClampCurrent(x))
      && Keeps(m, s, OutputKey) && Keeps(m, s, FuncKey) && Keeps(m, s, SenseOnKey)
      && Keeps(m, s, VoltProtKey) && Keeps(m, s, CurrProtKey) && Keeps(m, s, VoltKey)
  {
    var ws := ConfigCurrentWrites(x);
    ConfigCurrentRanged(x, 0);
    assert ws == [ws[0], ws[1]];
    ApplyPair(m, ws[0], ws[1]);
  }

  /** The voltage is the first field of the reply and the current the second,
      whatever follows them. */
  lemma MeasureFields(a: string, b: string, c: string, parse: string -> Option<real>, limit: Value)
    requires ',' !in a && ',' !in b
    ensures Measure(a + [','] + b + [','] + c, parse, 0, limit) == Measure(a, parse, 0, limit)
    ensures Measure(a + [','] + b + [','] + c, parse, 1, limit) == Measure(a + [','] + b, parse, 1, limit)
    ensures Split(a + [','] + b, ',') == [a, b]
  {
    SplitLeadingField(a, b + [','] + c, ',');
    SplitLeadingField(b, c, ',');
    assert a + [','] + b + [','] + c == a + [','] + (b + [','] + c);
    SplitLeadingField(a, b, ',');
    SplitWithoutSeparator(b, ',');
    SplitWithoutSeparator(a, ',');
  }

  /** A reply without a comma has no second field: `measCurrent` raises IndexError. */
  lemma MeasureMissingField(reply: string, parse: string -> Option<real>, limit: Value)
    requires ',' !in reply
    ensures Measure(reply, parse, 1, limit) == Err(IndexError)
  {
    SplitWithoutSeparator(reply, ',');
  }

  /** The reply "1.5,0.02": 1.5 V under a 4 V limit, 0.02 A at a 0.01 A limit. */
  lemma MeasureExample(parse: string -> Option<real>)
    requires parse("1.5") == Some(1.5) && parse("0.02") == Some(0.02)
    ensures Measure("1.5,0.02", parse, 0, Num(4.0)) == Ok(Reading(1.5, false))
    ensures Measure("1.5,0.02", parse, 1, Num(0.01)) == Ok(Reading(0.02, true))
  {
    SplitExample();
  }

  lemma SplitExample()
    ensures Split("1.5,0.02", ',') == ["1.5", "0.02"]
  {
    var v, c := "1.5", "0.02";
    assert "1.5,0.02" == v + [','] + c;
    SplitLeadingField(v, c, ',');
    SplitWithoutSeparator(c, ',');
  }

  /** Selecting the same port twice leaves the instrument as selecting it once. */
  lemma SetPortIdempotent(m: map<string, Value>, port: string)
    ensures Apply(Apply(m, PortWrites(port)), PortWrites(port)) == Apply(m, PortWrites(port))
  {
  }

  class Keithley2400 {
    const config: ConfigStore
    var latestCurrent: real
    var latestVoltage: real
    var currStep: Option<real>
    var voltStep: Option<real>
    /** Whether `_latestCurrentVal` holds the numpy float `_configCurrent`
        stores, rather than the initial integer 0. */
    var currentSourced: bool

    /** The store is explained by its log; the last sourced current is either
        the initial 0 or a clipped value. */
    ghost predicate Valid()
      reads this, config
    {
      config.Valid() && (latestCurrent == 0.0 || MinCurrent <= latestCurrent <= MaxCurrent)
    }

    /** `getConfigParam(key)`; a key the instrument never reported reads as None. */
    function Read(key: string): Value
      reads this, config
    {
      if key in config.store then config.store[key] else Nothing
    }

    /** `enable()` with no argument: whether the output state reads as on. */
    predicate OutputEnabled()
      reads this, config
    {
      IsOn(Read(OutputKey))
    }

    /** The ramp `enable(False)` runs: `setCurrent(0)` in current mode, else
        `setVoltage(0)`; both go through `_configCurrent`. */
    function DisablePlan(): Result<seq<real>>
      reads this, config
    {
      if Read(FuncKey) == Text("CURR") then SourcePlan(OutputEnabled(), currStep, latestCurrent, currentSourced, 0.0)
      else SourcePlan(OutputEnabled(), voltStep, latestVoltage, false, 0.0)
    }

    function GetCurrent(): Result<Value>
      reads this, config
    {
      Unwrap(Read(CurrKey))
    }

    function GetVoltage(): Result<Value>
      reads this, config
    {
      Unwrap(Read(VoltKey))
    }

    function ProtectionVoltage(): Value
      reads this, config
    {
      Read(VoltProtKey)
    }

    function ProtectionCurrent(): Value
      reads this, config
    {
      Read(CurrProtKey)
    }

    /** `measVoltage`, given the reply to `MEASURE:VOLT?`: its first field. */
    function MeasVoltage(reply: string, parse: string -> Option<real>): (r: Result<Reading>)
      reads this, config
    {
      Measure(reply, parse, 0, ProtectionVoltage())
    }

    /** `measCurrent`, given the reply to `MEASURE:CURR?`: its second field. */
    function MeasCurrent(reply: string, parse: string -> Option<real>): (r: Result<Reading>)
      reads this, config
    {
      Measure(reply, parse, 1, ProtectionCurrent())
    }

    /** The driver with the given instrument state, protection limits and steps. */
    constructor (snapshot: map<string, Value>,
                 protectionVoltage: real := DefaultProtectionVoltage,
                 protectionCurrent: real := DefaultProtectionCurrent,
                 currStep: Option<real> := Some(DefaultCurrStep),
                 voltStep: Option<real> := Some(DefaultVoltStep))
      ensures Valid() && fresh(config)
      ensures config.initial == snapshot
      ensures config.log == [Write(VoltProtKey, Num(protectionVoltage)), Write(CurrProtKey, Num(protectionCurrent))]
      ensures config.store == snapshot[VoltProtKey := Num(protectionVoltage)][CurrProtKey := Num(protectionCurrent)]
      ensures latestCurrent == 0.0 && latestVoltage == 0.0 && !currentSourced
      ensures this.currStep == currStep && this.voltStep == voltStep
    {
      config := new ConfigStore(snapshot);
      latestCurrent, latestVoltage, currentSourced := 0.0, 0.0, false;
      this.currStep, this.voltStep := currStep, voltStep;
      new;
      SetProtectionVoltage(protectionVoltage);
      SetProtectionCurrent(protectionCurrent);
    }

    /** `Keithley_2400_SM_noRamp`: the same driver with both steps disabled. */
    constructor NoRamp(snapshot: map<string, Value>,
                       protectionVoltage: real := DefaultProtectionVoltage,
                       protectionCurrent: real := DefaultProtectionCurrent)
      ensures Valid() && fresh(config)
      ensures config.initial == snapshot
      ensures config.log == [Write(VoltProtKey, Num(protectionVoltage)), Write(CurrProtKey, Num(protectionCurrent))]
      ensures config.store == snapshot[VoltProtKey := Num(protectionVoltage)][CurrProtKey := Num(protectionCurrent)]
      ensures latestCurrent == 0.0 && latestVoltage == 0.0 && !currentSourced
      ensures currStep.None? && voltStep.None?
    {
      config := new ConfigStore(snapshot);
      latestCurrent, latestVoltage, currentSourced := 0.0, 0.0, false;
      currStep, voltStep := None, None;
      new;
      SetProtectionVoltage(protectionVoltage);
      SetProtectionCurrent(protectionCurrent);
    }

    method SetProtectionVoltage(protectionVoltage: real)
      requires Valid()
      modifies config
      ensures Valid()
      ensures config.log == old(config.log) + [Write(VoltProtKey, Num(protectionVoltage))]
      ensures config.store == old(config.store)[VoltProtKey := Num(protectionVoltage)]
    {
      config.Set(VoltProtKey, Num(protectionVoltage));
    }

    method SetProtectionCurrent(protectionCurrent: real)
      requires Valid()
      modifies config
      ensures Valid()
      ensures config.log == old(config.log) + [Write(CurrProtKey, Num(protectionCurrent))]
      ensures config.store == old(config.store)[CurrProtKey := Num(protectionCurrent)]
    {
      config.Set(CurrProtKey, Num(protectionCurrent));
    }

    method SetPort(port: string)
      requires Valid()
      modifies config
      ensures Valid()
      ensures config.log == old(config.log) + PortWrites(port)
      ensures config.store == Apply(old(config.store), PortWrites(port))
    {
      if port == "Front" {
        config.Set(TermKey, Text("FRON"));
      } else if port == "Rear" {
        config.Set(TermKey, Text("REAR"));
      }
      config.Followed(old(config.store), old(config.log), PortWrites(port));
    }

    /** `__setSourceMode`. */
    method SetSourceMode(isCurrentSource: bool)
      requires Valid()
      modifies config
      ensures Valid()
      ensures config.log == old(config.log) + SourceModeWrites(isCurrentSource)
      ensures config.store == Apply(old(config.store), SourceModeWrites(isCurrentSource))
    {
      var sourceStr, meterStr := "VOLT", "CURR";
      if isCurrentSource {
        sourceStr, meterStr := "CURR", "VOLT";
      }
      ghost var ws := ModeWrites(sourceStr, meterStr);
      config.Set(FuncKey, Text(sourceStr));
      config.Set("SOURCE:" + sourceStr + ":MODE", Text("FIXED"));
      config.Set("SENSE:FUNCTION:OFF:ALL", Nothing);
      config.Set(SenseOnKey, Text("\"" + meterStr + "\""));
      config.Set("SENSE:" + meterStr + ":RANGE:AUTO", Text("ON"));
      config.Set("RES:MODE", Text("MAN"));
      AppendSix(old(config.log), ws[0], ws[1], ws[2], ws[3], ws[4], ws[5]);
      config.Followed(old(config.store), old(config.log), ws);
    }

    /** `_configCurrent`. */
    method ConfigCurrent(currAmps: real)
      requires Valid()
      modifies this, config
      ensures Valid()
      ensures config.log == old(config.log) + ConfigCurrentWrites(currAmps)
      ensures config.store == Apply(old(config.store), ConfigCurrentWrites(currAmps))
      ensures latestCurrent == ClampCurrent(currAmps) && currentSourced
      ensures GetCurrent() == Ok(Num(latestCurrent))
      ensures latestVoltage == old(latestVoltage)
      ensures currStep == old(currStep) && voltStep == old(voltStep)
    {
      var c := Clamp(currAmps, MinCurrent, MaxCurrent);
      ghost var ws := ConfigCurrentWrites(currAmps);
      ConfigCurrentPair(currAmps);
      if c != 0.0 {
        config.Set(CurrRangeKey, Num(DecadeRange(c)));
      }
      config.Set(CurrKey, Num(c));
      latestCurrent, currentSourced := c, true;
      AppendAssoc(old(config.log), [ws[0]], [ws[1]]);
      assert [ws[0]] + [ws[1]] == ws;
      config.Followed(old(config.store), old(config.log), ws);
    }

    /** `_configVoltage`. */
    method ConfigVoltage(voltVolts: real)
      requires Valid()
      modifies this, config
      ensures Valid()
      ensures config.log == old(config.log) + ConfigVoltageWrites(voltVolts)
      ensures config.store == Apply(old(config.store), ConfigVoltageWrites(voltVolts))
      ensures latestVoltage == voltVolts
      ensures GetVoltage() == Ok(Num(voltVolts))
      ensures latestCurrent == old(latestCurrent) && currentSourced == old(currentSourced)
      ensures currStep == old(currStep) && voltStep == old(voltStep)
    {
      ghost var ranged: seq<Write> := [];
      if voltVolts != 0.0 {
        config.Set(VoltRangeKey, Num(DecadeRange(voltVolts)));
        ranged := [Write(VoltRangeKey, Num(DecadeRange(voltVolts)))];
      }
      assert config.log == old(config.log) + ranged;
      config.Set(VoltKey, Num(voltVolts));
      latestVoltage := voltVolts;
      ghost var ws := ConfigVoltageWrites(voltVolts);
      AppendAssoc(old(config.log), ranged, [Write(VoltKey, Num(voltVolts))]);
      config.Followed(old(config.store), old(config.log), ws);
    }

    /** The ramp loop of `setCurrent`/`setVoltage`: `_configCurrent` on each value. */
    method ConfigCurrentEach(values: seq<real>)
      requires Valid()
      modifies this, config
      ensures Valid()
      ensures config.log == old(config.log) + ConfigCurrentAll(values)
      ensures config.store == Apply(old(config.store), ConfigCurrentAll(values))
      ensures latestCurrent == Settled(old(latestCurrent), values)
      ensures currentSourced == (old(currentSourced) || values != [])
      ensures latestVoltage == old(latestVoltage)
      ensures currStep == old(currStep) && voltStep == old(voltStep)
    {
      for i := 0 to |values|
        invariant Valid()
        invariant config.log == old(config.log) + ConfigCurrentAll(values[..i])
        invariant latestCurrent == Settled(old(latestCurrent), values[..i])
        invariant currentSourced == (old(currentSourced) || i > 0)
        invariant latestVoltage == old(latestVoltage)
        invariant currStep == old(currStep) && voltStep == old(voltStep)
      {
        ConfigCurrent(values[i]);
        ConfigCurrentAllStep(values, i, old(latestCurrent));
        AppendAssoc(old(config.log), ConfigCurrentAll(values[..i]), ConfigCurrentWrites(values[i]));
      }
      assert values[..|values|] == values;
      config.Followed(old(config.store), old(config.log), ConfigCurrentAll(values));
    }

    /** The state after running plan from the given old state: the exception
        and nothing written, or every planned value sourced in order. */
    ghost predicate Ran(plan: Result<seq<real>>, r: Outcome,
                        oldStore: map<string, Value>, oldLog: seq<Write>, oldLatest: real, oldSourced: bool)
      reads this, config
    {
      match plan
      case Err(e) =>
        && r == Fail(e) && config.log == oldLog && config.store == oldStore
        && latestCurrent == oldLatest && currentSourced == oldSourced
      case Ok(pts) =>
        && r == Pass
        && config.log == oldLog + ConfigCurrentAll(pts)
        && config.store == Apply(oldStore, ConfigCurrentAll(pts))
        && latestCurrent == Settled(oldLatest, pts)
        && currentSourced == (oldSourced || pts != [])
    }

    /** `setCurrent`: jump or ramp from the last sourced current. */
    method SetCurrent(currAmps: real) returns (r: Outcome)
      requires Valid()
      modifies this, config
      ensures Valid()
      ensures Ran(SourcePlan(old(OutputEnabled()), old(currStep), old(latestCurrent), old(currentSourced), currAmps),
                  r, old(config.store), old(config.log), old(latestCurrent), old(currentSourced))
      ensures latestVoltage == old(latestVoltage)
      ensures currStep == old(currStep) && voltStep == old(voltStep)
    {
      var currTemp := latestCurrent;
      if !OutputEnabled() || currStep.None? {
        ConfigCurrent(currAmps);
        assert ConfigCurrentAll([currAmps]) == ConfigCurrentWrites(currAmps);
        r := Pass;
      } else {
        var pts := Ramp.RampPoints(currTemp, currAmps, currStep.value, currentSourced);
        if pts.Err? {
          return Fail(pts.error);
        }
        ConfigCurrentEach(pts.value);
        r := Pass;
      }
    }

    /** `setVoltage`, as written: it ramps from the last sourced VOLTAGE with the
        voltage step, but sources every value through `_configCurrent`. */
    method SetVoltage(voltVolts: real) returns (r: Outcome)
      requires Valid()
      modifies this, config
      ensures Valid()
      ensures Ran(SourcePlan(old(OutputEnabled()), old(voltStep), old(latestVoltage), false, voltVolts),
                  r, old(config.store), old(config.log), old(latestCurrent), old(currentSourced))
      ensures latestVoltage == old(latestVoltage)
      ensures currStep == old(currStep) && voltStep == old(voltStep)
    {
      var voltTemp := latestVoltage;
      if !OutputEnabled() || voltStep.None? {
        ConfigCurrent(voltVolts);
        assert ConfigCurrentAll([voltVolts]) == ConfigCurrentWrites(voltVolts);
        r := Pass;
      } else {
        var pts := Ramp.RampPoints(voltTemp, voltVolts, voltStep.value, false);
        if pts.Err? {
          return Fail(pts.error);
        }
        ConfigCurrentEach(pts.value);
        r := Pass;
      }
    }

    /** The first step of `enable(False)`: ramp the source to zero with
        `setCurrent(0)` in current mode, else `setVoltage(0)`. */
    method RampToZero() returns (r: Outcome)
      requires Valid()
      modifies this, config
      ensures Valid()
      ensures Ran(old(DisablePlan()), r, old(config.store), old(config.log), old(latestCurrent), old(currentSourced))
      ensures latestVoltage == old(latestVoltage)
      ensures currStep == old(currStep) && voltStep == old(voltStep)
    {
      if Read(FuncKey) == Text("CURR") {
        r := SetCurrent(0.0);
      } else {
        r := SetVoltage(0.0);
      }
    }

    /** `enable(False)`: ramp the source to zero, then switch the output off;
        the result is the output state read back. */
    method Disable() returns (r: Result<bool>)
      requires Valid()
      modifies this, config
      ensures Valid()
      ensures match old(DisablePlan())
        case Err(e) =>
          r == Err(e) && config.log == old(config.log) && config.store == old(config.store)
          && latestCurrent == old(latestCurrent) && currentSourced == old(currentSourced)
        case Ok(pts) =>
          && r == Ok(false)
          && config.log == old(config.log) + DisableWrites(pts)
          && config.store == Apply(old(config.store), DisableWrites(pts))
          && latestCurrent == Settled(old(latestCurrent), pts)
          && currentSourced == (old(currentSourced) || pts != [])
      ensures latestVoltage == old(latestVoltage)
      ensures currStep == old(currStep) && voltStep == old(voltStep)
    {
      var ramped := RampToZero();
      if ramped.Fail? {
        return Err(ramped.error);
      }
      ghost var pts := old(DisablePlan()).value;
      ghost var ramp, off := ConfigCurrentAll(pts), Write(OutputKey, Num(0.0));
      config.Set(OutputKey, Num(0.0));
      assert DisableWrites(pts) == ramp + [off];
      AppendAssoc(old(config.log), ramp, [off]);
      ApplyAppend(old(config.store), ramp, [off]);
      ApplySingle(Apply(old(config.store), ramp), off);
      r := Ok(IsOn(Read(OutputKey)));
    }

    /** `enable(newState)`: get, or set after ramping the source to zero on a
        disable; the result is the output state read back. */
    method Enable(newState: Option<bool>) returns (r: Result<bool>)
      requires Valid()
      modifies this, config
      ensures Valid()
      ensures newState.None? ==>
        && r == Ok(old(OutputEnabled()))
        && config.log == old(config.log) && config.store == old(config.store)
        && latestCurrent == old(latestCurrent) && currentSourced == old(currentSourced)
      ensures newState == Some(true) ==>
        && r == Ok(true)
        && config.log == old(config.log) + [Write(OutputKey, Num(1.0))]
        && config.store == old(config.store)[OutputKey := Num(1.0)]
        && latestCurrent == old(latestCurrent) && currentSourced == old(currentSourced)
      ensures newState == Some(false) ==>
        match old(DisablePlan())
        case Err(e) =>
          r == Err(e) && config.log == old(config.log) && config.store == old(config.store)
          && latestCurrent == old(latestCurrent) && currentSourced == old(currentSourced)
        case Ok(pts) =>
          && r == Ok(false)
          && config.log == old(config.log) + DisableWrites(pts)
          && config.store == Apply(old(config.store), DisableWrites(pts))
          && latestCurrent == Settled(old(latestCurrent), pts)
          && currentSourced == (old(currentSourced) || pts != [])
      ensures latestVoltage == old(latestVoltage)
      ensures currStep == old(currStep) && voltStep == old(voltStep)
    {
      if newState == Some(false) {
        r := Disable();
      } else {
        if newState == Some(true) {
          config.Set(OutputKey, Num(1.0));
        }
        r := Ok(IsOn(Read(OutputKey)));
      }
    }

    /** `setCurrentMode(protectionVoltage)`. */
    method SetCurrentMode(protectionVoltage: real := 1.0) returns (r: Outcome)
      requires Valid()
      modifies this, config
      ensures Valid()
      ensures match old(DisablePlan())
        case Err(e) =>
          r == Fail(e) && config.log == old(config.log) && config.store == old(config.store)
          && latestCurrent == old(latestCurrent) && currentSourced == old(currentSourced)
        case Ok(pts) =>
          && r == Pass
          && config.log == old(config.log) + CurrentModeWrites(pts, protectionVoltage)
          && config.store == Apply(old(config.store), CurrentModeWrites(pts, protectionVoltage))
          && latestCurrent == MinCurrent && currentSourced
      ensures latestVoltage == old(latestVoltage)
      ensures currStep == old(currStep) && voltStep == old(voltStep)
    {
      var disabled := Disable();
      if disabled.Err? {
        return Fail(disabled.error);
      }
      ghost var pts := old(DisablePlan()).value;
      ghost var afterDisable := config.log;
      assert afterDisable == old(config.log) + DisableWrites(pts);
      SetSourceMode(true);
      SetProtectionVoltage(protectionVoltage);
      ConfigCurrent(0.0);
      AppendRegroup(old(config.log), DisableWrites(pts), SourceModeWrites(true),
                    [Write(VoltProtKey, Num(protectionVoltage))], ConfigCurrentWrites(0.0));
      r := Pass;
      assert config.log == old(config.log) + CurrentModeWrites(pts, protectionVoltage);
      config.Followed(old(config.store), old(config.log), CurrentModeWrites(pts, protectionVoltage));
    }

    /** `setVoltageMode(protectionCurrent)`. */
    method SetVoltageMode(protectionCurrent: real := 0.05) returns (r: Outcome)
      requires Valid()
      modifies this, config
      ensures Valid()
      ensures match old(DisablePlan())
        case Err(e) =>
          r == Fail(e) && config.log == old(config.log) && config.store == old(config.store)
          && latestCurrent == old(latestCurrent) && latestVoltage == old(latestVoltage)
          && currentSourced == old(currentSourced)
        case Ok(pts) =>
          && r == Pass
          && config.log == old(config.log) + VoltageModeWrites(pts, protectionCurrent)
          && config.store == Apply(old(config.store), VoltageModeWrites(pts, protectionCurrent))
          && latestCurrent == Settled(old(latestCurrent), pts)
          && currentSourced == (old(currentSourced) || pts != [])
          && latestVoltage == 0.0
      ensures currStep == old(currStep) && voltStep == old(voltStep)
    {
      var disabled := Disable();
      if disabled.Err? {
        return Fail(disabled.error);
      }
      ghost var pts := old(DisablePlan()).value;
      ghost var afterDisable := config.log;
      assert afterDisable == old(config.log) + DisableWrites(pts);
      SetSourceMode(false);
      SetProtectionCurrent(protectionCurrent);
      ConfigVoltage(0.0);
      AppendRegroup(old(config.log), DisableWrites(pts), SourceModeWrites(false),
                    [Write(CurrProtKey, Num(protectionCurrent))], ConfigVoltageWrites(0.0));
      r := Pass;
      assert config.log == old(config.log) + VoltageModeWrites(pts, protectionCurrent);
      config.Followed(old(config.store), old(config.log), VoltageModeWrites(pts, protectionCurrent));
    }
  }
}
