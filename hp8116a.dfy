/** The HP 8116A function generator driver. Its GPIB read-back is broken, so
    every value it reports is one it wrote earlier; frequencies are written
    as a mantissa and one of four units, one unit per factor of a thousand. */
module HP8116A {
  import opened Results
  import opened Numbers
  import opened Lists
  import opened Config

  const Units: seq<string> := ["MZ", "HZ", "KHZ", "MHZ"]
  const Tokens: seq<string> := ["dc", "sine", "triangle", "square", "pulse"]
  const MinAmplitude: real := 0.01
  const MaxAmplitude: real := 10.0

  const FrqKey := "FRQ"
  const WaveKey := "W"
  const AmpKey := "AMP"
  const OfsKey := "OFS"
  const DutyKey := "DTY"

  /** `toMultiplier(k)`: the value of one unit of index k, 10^(3(k - 1)). */
  function Multiplier(k: int): (r: real)
    ensures r > 0.0
  {
    Pow10(3 * (k - 1))
  }

  /** `int(np.ceil(np.log10(f) / 3))` for a positive f, on exact reals. */
  function SciOrder(f: real): int
    requires f > 0.0
  {
    (Decade(f) + 2) / 3
  }

  /** The order of f is the k with 10^(3k - 3) < f <= 10^(3k). */
  lemma SciOrderBounds(f: real)
    requires f > 0.0
    ensures Pow10(3 * SciOrder(f) - 3) < f <= Pow10(3 * SciOrder(f))
  {
    var d := Decade(f);
    var k := SciOrder(f);
    assert 3 * k - 2 <= d <= 3 * k;
    Pow10Monotone(3 * k - 3, d - 1);
    Pow10Monotone(d, 3 * k);
  }

  /** ... and no other k has that property. */
  lemma SciOrderUnique(f: real, k: int)
    requires f > 0.0
    requires Pow10(3 * k - 3) < f <= Pow10(3 * k)
    ensures SciOrder(f) == k
  {
    var j := SciOrder(f);
    SciOrderBounds(f);
    Pow10LessIff(3 * j, 3 * k - 3);
    Pow10LessIff(3 * k, 3 * j - 3);
  }

  /** The mantissa `frequency` writes lies in (1, 1000]. */
  lemma MantissaBounds(f: real)
    requires f > 0.0
    ensures 1.0 < f / Multiplier(SciOrder(f)) <= 1000.0
  {
    var k := SciOrder(f);
    SciOrderBounds(f);
    Pow10Shift3(3 * k - 3);
    QuotientBounds(f, Multiplier(k));
  }

  /** p < f <= 1000 p places f / p in (1, 1000]. */
  lemma QuotientBounds(f: real, p: real)
    requires 0.0 < p < f <= 1000.0 * p
    ensures 1.0 < f / p <= 1000.0
  {
    var m := f / p;
    assert m * p == f;
    MulCancelStrict(1.0, m, p);
    MulCancel(m, 1000.0, p);
  }

  /** The FRQ setting `frequency(f)` writes AS WRITTEN: Python's negative list
      indices give the orders -4..-1 a unit too, the wrong one. log10 of zero
      ends in OverflowError, of a negative number in ValueError. */
  function SciSettingAsWritten(f: real): Result<Value> {
    if f == 0.0 then Err(OverflowError)
    else if f < 0.0 then Err(ValueError)
    else
      var k := SciOrder(f);
      match PyIndex(Units, k)
      case Err(e) => Err(e)
      case Ok(u) => Ok(Quantity(f / Multiplier(k), u))
  }

  /** The FRQ setting with the evident intent: an order without a unit of its
      own is an IndexError, so only (1e-3, 1e9] is accepted. */
  function SciSetting(f: real): (r: Result<Value>)
    ensures r.Ok? ==> FrequencyShape(r.value)
    ensures r.Err? && f > 0.0 ==> r.error == IndexError
  {
    if f == 0.0 then Err(OverflowError)
    else if f < 0.0 then Err(ValueError)
    else
      var k := SciOrder(f);
      if 0 <= k < |Units| then
        MantissaBounds(f);
        Ok(Quantity(f / Multiplier(k), Units[k]))
      else Err(IndexError)
  }

  /** What the FRQ key of this driver ever holds. */
  predicate FrequencyShape(v: Value) {
    v.Quantity? && v.unit in Units && 1.0 < v.mantissa <= 1000.0
  }

  /** The read-back half of `frequency`: mantissa times the unit's multiplier. */
  function ReadFrequency(v: Value): Result<real> {
    match v
    case Quantity(m, u) =>
      (match UnitMultiplier(u)
       case None => Err(ValueError)
       case Some(p) => Ok(m * p))
    case _ => Err(AttributeError)
  }

  /** `10 ** (3 * (sciUnits.index(u) - 1))`, or nothing for an unknown unit. */
  function UnitMultiplier(u: string): Option<real> {
    match IndexOf(Units, u)
    case None => None
    case Some(i) => Some(Multiplier(i))
  }

  /** `frequency(f)` then reading back gives f, for every f it accepts. */
  lemma FrequencyRoundTrip(f: real)
    requires SciSetting(f).Ok?
    ensures ReadFrequency(SciSetting(f).value) == Ok(f)
  {
    var k := SciOrder(f);
    assert SciSetting(f).value == Quantity(f / Multiplier(k), Units[k]);
    QuotientTimes(f, Multiplier(k));
    ReadsAs(f / Multiplier(k), k, f);
  }

  lemma QuotientTimes(f: real, p: real)
    requires p > 0.0
    ensures (f / p) * p == f
  {
  }

  /** It accepts exactly the frequencies in (1e-3, 1e9]. */
  lemma SciSettingDomain(f: real)
    ensures SciSetting(f).Ok? <==> Pow10(-3) < f <= Pow10(9)
  {
    if f > 0.0 {
      var k := SciOrder(f);
      SciOrderBounds(f);
      Pow10LessIff(-3, 3 * k);
      Pow10LessIff(3 * k - 3, -3);
      Pow10LessIff(9, 3 * k - 3);
      Pow10LessIff(3 * k, 9);
    }
  }

  /** Every FRQ value of this driver reads back a frequency in (1e-3, 1e9]. */
  lemma FrequencyShapeReads(v: Value)
    requires FrequencyShape(v)
    ensures ReadFrequency(v).Ok?
    ensures Pow10(-3) < ReadFrequency(v).value <= Pow10(9)
  {
    var i: int := IndexOf(Units, v.unit).value;
    assert v == Quantity(v.mantissa, Units[i]);
    ReadUnitBounds(v.mantissa, i);
  }

  /** A mantissa in (1, 1000] with any unit reads back within (1e-3, 1e9]. */
  lemma ReadUnitBounds(m: real, i: int)
    requires 0 <= i < |Units| && 1.0 < m <= 1000.0
    ensures ReadFrequency(Quantity(m, Units[i])).Ok?
    ensures Pow10(-3) < ReadFrequency(Quantity(m, Units[i])).value <= Pow10(9)
  {
    var p := Multiplier(i);
    ReadUnit(m, i);
    assert Pow10(-3) <= p <= Pow10(6) by {
      Pow10Monotone(-3, 3 * (i - 1));
      Pow10Monotone(3 * (i - 1), 6);
    }
    assert Pow10(9) == 1000.0 * Pow10(6) by {
      Pow10Shift3(6);
    }
    ScaledBetween(m, p, Pow10(-3), Pow10(6));
  }

  /** A mantissa in (1, 1000] times a multiplier in [lo, hi] lies in (lo, 1000 hi]. */
  lemma ScaledBetween(m: real, p: real, lo: real, hi: real)
    requires 0.0 < lo <= p <= hi && 1.0 < m <= 1000.0
    ensures lo < m * p <= 1000.0 * hi
  {
    ScaledAbove(m, p, lo);
    ScaledBelow(m, p, hi);
  }

  lemma ScaledAbove(m: real, p: real, lo: real)
    requires 0.0 < lo <= p && 1.0 < m
    ensures lo < m * p
  {
    MulStrict(1.0, m, p);
  }

  lemma ScaledBelow(m: real, p: real, hi: real)
    requires 0.0 < p <= hi && m <= 1000.0
    ensures m * p <= 1000.0 * hi
  {
    MulMonotone(m, 1000.0, p);
  }

  /** Wherever the intended setting is defined, the code agrees with it. */
  lemma SciSettingAgrees(f: real)
    requires SciSetting(f).Ok?
    ensures SciSettingAsWritten(f) == SciSetting(f)
  {
  }

  /** As written, every frequency in (1e-15, 1e-3] is accepted, and reads back
      10^12 times larger. */
  lemma SciSettingAsWrittenWrongUnit(f: real)
    requires Pow10(-15) < f <= Pow10(-3)
    ensures SciSettingAsWritten(f).Ok? && SciSetting(f) == Err(IndexError)
    ensures ReadFrequency(SciSettingAsWritten(f).value) == Ok(1000000000000.0 * f)
  {
    var k := SciOrderBelowMilli(f);
    assert PyIndex(Units, k) == Ok(Units[k + 4]);
    WrappedUnitReadBack(f, k);
  }

  /** The frequencies in (1e-15, 1e-3] have the orders -4..-1. */
  lemma SciOrderBelowMilli(f: real) returns (k: int)
    requires Pow10(-15) < f <= Pow10(-3)
    ensures f > 0.0 && k == SciOrder(f) && -4 <= k <= -1
  {
    Pow10LessIff(-15, 0);
    k := SciOrder(f);
    SciOrderBounds(f);
    Pow10LessIff(3 * k - 3, -3);
    Pow10LessIff(-15, 3 * k);
  }

  /** The unit four places on is worth 10^12 times the intended one. */
  lemma WrappedUnitReadBack(f: real, k: int)
    requires f > 0.0 && -4 <= k <= -1
    ensures ReadFrequency(Quantity(f / Multiplier(k), Units[k + 4])) == Ok(1000000000000.0 * f)
  {
    var p, q := Multiplier(k), Multiplier(k + 4);
    assert q == 1000000000000.0 * p by {
      Pow10Shift12(3 * k - 3);
    }
    ScaledQuotient(f, p, q);
    ReadsAs(f / p, k + 4, 1000000000000.0 * f);
  }

  /** A mantissa with the unit of index i reads back as mantissa * 10^(3(i - 1)). */
  lemma ReadUnit(m: real, i: int)
    requires 0 <= i < |Units|
    ensures ReadFrequency(Quantity(m, Units[i])) == Ok(m * Multiplier(i))
  {
    UnitIndex(i);
    var p := Multiplier(i);
    ReadWith(m, Units[i], p);
    assert m * p == m * Multiplier(i);
  }

  /** A unit with multiplier p reads mantissa m as m p. */
  lemma ReadWith(m: real, u: string, p: real)
    requires UnitMultiplier(u) == Some(p)
    ensures ReadFrequency(Quantity(m, u)) == Ok(m * p)
  {
  }

  /** `sciUnits.index` finds each unit at its own place. */
  lemma UnitIndex(i: int)
    requires 0 <= i < |Units|
    ensures IndexOf(Units, Units[i]) == Some(i)
  {
    UnitsDistinct();
    IndexOfDistinct(Units, i);
  }

  /** A mantissa m with the unit of index i reads back as f when m 10^(3(i - 1)) = f. */
  lemma ReadsAs(m: real, i: int, f: real)
    requires 0 <= i < |Units| && m * Multiplier(i) == f
    ensures ReadFrequency(Quantity(m, Units[i])) == Ok(f)
  {
    ReadUnit(m, i);
  }

  /** The four unit names are distinct. */
  lemma UnitsDistinct()
    ensures NoDuplicates(Units)
  {
    forall i, j | 0 <= i < j < |Units|
      ensures Units[i] != Units[j]
    {
      assert Units[i][|Units[i]| - 1] == 'Z';
      if |Units[i]| == |Units[j]| {
        assert Units[i][0] != Units[j][0];
      }
    }
  }

  /** Dividing by p and multiplying by 10^12 p scales by 10^12. */
  lemma ScaledQuotient(f: real, p: real, q: real)
    requires p > 0.0 && q == 1000000000000.0 * p
    ensures (f / p) * q == 1000000000000.0 * f
  {
    var m := f / p;
    assert m * p == f;
    assert m * q == 1000000000000.0 * (m * p);
  }

  /** `frequency(1e-4)`, as written, sets "100.0 MHZ" and reads back 1e8. */
  lemma SciSettingAsWrittenExample()
    ensures SciSettingAsWritten(1.0 / 10000.0) == Ok(Quantity(100.0, "MHZ"))
    ensures ReadFrequency(Quantity(100.0, "MHZ")) == Ok(100000000.0)
  {
    Pow10Reciprocal(6);
    Pow10Reciprocal(3);
    assert Pow10(6) == 1000000.0 && Pow10(3) == 1000.0;
    SciOrderUnique(1.0 / 10000.0, -1);
    ReadUnit(100.0, 3);
  }

  /** Python's `int` on a float truncates toward zero. */
  function Trunc(r: real): (i: int)
    ensures r >= 0.0 ==> i as real <= r < i as real + 1.0
    ensures r < 0.0 ==> i as real - 1.0 < r <= i as real
  {
    if r >= 0.0 then r.Floor else -((-r).Floor)
  }

  /** What the W key of this driver ever holds: a token index. */
  predicate WaveShape(v: Value) {
    v.Num? && 0 <= v.r.Floor < |Tokens| && v.r.Floor as real == v.r
  }

  /** The read-back half of `waveform`: `tokens[int(value)]`. */
  function ReadWaveform(v: Value): Result<string> {
    match v
    case Num(r) => PyIndex(Tokens, Trunc(r))
    case _ => Err(ValueError)
  }

  /** Writing the index of a token and reading it back gives the token. */
  lemma WaveformRoundTrip(w: string)
    requires w in Tokens
    ensures WaveShape(Num(IndexOf(Tokens, w).value as real))
    ensures ReadWaveform(Num(IndexOf(Tokens, w).value as real)) == Ok(w)
  {
  }

  /** Every W value of this driver reads back one of the tokens. */
  lemma WaveShapeReads(v: Value)
    requires WaveShape(v)
    ensures ReadWaveform(v).Ok? && ReadWaveform(v).value in Tokens
  {
  }

  /** The argument of `amplAndOffs`: none, a scalar, or a pair whose halves
      may each be None. */
  datatype AmplOffsArg = Unset | Scalar(x: real) | Pair(amplitude: Option<real>, offset: Option<real>)

  /** `np.clip(amplitude, .01, 10)` AS WRITTEN: numpy cannot compare None
      with a float, so a missing amplitude raises TypeError. */
  function ClampAmplitudeAsWritten(a: Option<real>): Result<Option<real>> {
    match a
    case None => Err(TypeError)
    case Some(x) => Ok(Some(Clamp(x, MinAmplitude, MaxAmplitude)))
  }

  /** The clip with the evident intent: only an amplitude that is given. */
  function ClampAmplitude(a: Option<real>): (r: Option<real>)
    ensures r.Some? <==> a.Some?
    ensures r.Some? ==> MinAmplitude <= r.value <= MaxAmplitude
    ensures a.Some? && MinAmplitude <= a.value <= MaxAmplitude ==> r == a
  {
    match a
    case None => None
    case Some(x) => Some(Clamp(x, MinAmplitude, MaxAmplitude))
  }

  /** The write of "<x> V" to key, when x is given. */
  function VoltWrites(key: string, x: Option<real>): seq<Write> {
    if x.Some? then [Write(key, Quantity(x.value, "V"))] else []
  }

  /** `float(getConfigParam(key).split(' ')[0])` on the cache m. */
  function ReadVolts(m: map<string, Value>, key: string): Result<real> {
    if key !in m then Err(BuggyHardware)
    else match m[key]
      case Quantity(x, _) => Ok(x)
      case _ => Err(AttributeError)
  }

  /** The rest of `amplAndOffs` once the amplitude is clipped: write it if
      given, read it back, then the offset. */
  function AmplOffsFrom(m: map<string, Value>, a: Option<real>, o: Option<real>): (Result<(real, real)>, seq<Write>) {
    var aw := VoltWrites(AmpKey, a);
    var m1 := Apply(m, aw);
    match ReadVolts(m1, AmpKey)
    case Err(e) => (Err(e), aw)
    case Ok(ampl) =>
      var rest := OffsFrom(m1, ampl, o);
      (rest.0, aw + rest.1)
  }

  /** The offset half: write it if given and read it back beside ampl. */
  function OffsFrom(m: map<string, Value>, ampl: real, o: Option<real>): (Result<(real, real)>, seq<Write>) {
    var ow := VoltWrites(OfsKey, o);
    match ReadVolts(Apply(m, ow), OfsKey)
    case Err(e) => (Err(e), ow)
    case Ok(offs) => (Ok((ampl, offs)), ow)
  }

  /** The result and the writes of `amplAndOffs(arg)` on cache m. */
  function AmplOffsOutcome(m: map<string, Value>, arg: AmplOffsArg): (Result<(real, real)>, seq<Write>) {
    match arg
    case Scalar(_) => (Err(ValueError), [])
    case Unset => AmplOffsFrom(m, None, None)
    case Pair(a, o) => AmplOffsFrom(m, ClampAmplitude(a), o)
  }

  /** `amplAndOffs(arg)` AS WRITTEN: the clip runs before the None test. */
  function AmplOffsOutcomeAsWritten(m: map<string, Value>, arg: AmplOffsArg): (Result<(real, real)>, seq<Write>) {
    var pair := if arg.Pair? then arg else Pair(None, None);
    if arg.Scalar? then (Err(ValueError), [])
    else match ClampAmplitudeAsWritten(pair.amplitude)
      case Err(e) => (Err(e), [])
      case Ok(a) => AmplOffsFrom(m, a, pair.offset)
  }

  /** As written, asking for the amplitude (None in its place) always raises
      TypeError and writes nothing, though the documented contract is to read
      it back; with an amplitude given the two agree. */
  lemma AmplOffsAsWrittenRejectsGet(m: map<string, Value>, arg: AmplOffsArg)
    ensures arg.Unset? || (arg.Pair? && arg.amplitude.None?) ==>
      AmplOffsOutcomeAsWritten(m, arg) == (Err(TypeError), [])
    ensures arg.Pair? && arg.amplitude.Some? ==>
      AmplOffsOutcomeAsWritten(m, arg) == AmplOffsOutcome(m, arg)
  {
  }

  /** Intended: a pair of Nones writes nothing and reads both values back. */
  lemma AmplOffsGetOnly(m: map<string, Value>)
    ensures AmplOffsOutcome(m, Unset) == AmplOffsOutcome(m, Pair(None, None))
    ensures AmplOffsOutcome(m, Unset).1 == []
    ensures AmplOffsOutcome(m, Unset).0 ==
      (if ReadVolts(m, AmpKey).Err? then Err(ReadVolts(m, AmpKey).error)
       else if ReadVolts(m, OfsKey).Err? then Err(ReadVolts(m, OfsKey).error)
       else Ok((ReadVolts(m, AmpKey).value, ReadVolts(m, OfsKey).value)))
  {
  }

  /** Setting both writes the clipped amplitude, then the offset, and returns
      the two values written. */
  lemma AmplOffsSetBoth(m: map<string, Value>, a: real, o: real)
    ensures var c := Clamp(a, MinAmplitude, MaxAmplitude);
      AmplOffsOutcome(m, Pair(Some(a), Some(o)))
      == (Ok((c, o)), [Write(AmpKey, Quantity(c, "V")), Write(OfsKey, Quantity(o, "V"))])
  {
    var c := Clamp(a, MinAmplitude, MaxAmplitude);
    var aw, ow := [Write(AmpKey, Quantity(c, "V"))], [Write(OfsKey, Quantity(o, "V"))];
    assert ClampAmplitude(Some(a)) == Some(c);
    assert VoltWrites(AmpKey, Some(c)) == aw && VoltWrites(OfsKey, Some(o)) == ow;
    ApplySingle(m, aw[0]);
    var m1 := Apply(m, aw);
    assert ReadVolts(m1, AmpKey) == Ok(c);
    ApplySingle(m1, ow[0]);
    assert ReadVolts(Apply(m1, ow), OfsKey) == Ok(o);
    assert aw + ow == [aw[0], ow[0]];
  }

  /** On a cache whose amplitude was written by this driver, any amplitude
      returned lies in [0.01, 10]. */
  lemma AmplOffsClamped(m: map<string, Value>, arg: AmplOffsArg)
    requires AmpKey in m ==> AmplitudeShape(m[AmpKey])
    ensures AmplOffsOutcome(m, arg).0.Ok? ==>
      MinAmplitude <= AmplOffsOutcome(m, arg).0.value.0 <= MaxAmplitude
  {
    if arg.Pair? && arg.amplitude.Some? {
      var c := ClampAmplitude(arg.amplitude);
      assert Apply(m, VoltWrites(AmpKey, c)) == m[AmpKey := Quantity(c.value, "V")];
    }
  }

  predicate AmplitudeShape(v: Value) {
    v.Quantity? && v.unit == "V" && MinAmplitude <= v.mantissa <= MaxAmplitude
  }

  predicate UnitShape(v: Value, unit: string) {
    v.Quantity? && v.unit == unit
  }

  class FunctionGenerator {
    const config: ConfigStore

    /** The cache only ever holds what the driver wrote, in its own shapes. */
    ghost predicate Valid()
      reads this, config
    {
      && config.Valid()
      && (FrqKey in config.store ==> FrequencyShape(config.store[FrqKey]))
      && (WaveKey in config.store ==> WaveShape(config.store[WaveKey]))
      && (AmpKey in config.store ==> AmplitudeShape(config.store[AmpKey]))
      && (OfsKey in config.store ==> UnitShape(config.store[OfsKey], "V"))
      && (DutyKey in config.store ==> UnitShape(config.store[DutyKey], "%"))
    }

    /** A fresh driver: nothing cached, and the hardware cannot be read. */
    constructor ()
      ensures Valid() && fresh(config)
      ensures config.store == map[] && config.log == []
    {
      config := new ConfigStore(map[]);
    }

    /** `getConfigParam(key)`: the cached value, or `_getHardwareConfig`, which
        always raises BuggyHardware. */
    function Read(key: string): (r: Result<Value>)
      reads this, config
      ensures r.Ok? <==> key in config.store
      ensures r.Ok? ==> r.value == config.store[key]
      ensures r.Err? ==> r.error == BuggyHardware
    {
      if key in config.store then Ok(config.store[key]) else Err(BuggyHardware)
    }

    function FrequencyReading(): Result<real>
      reads this, config
    {
      match Read(FrqKey)
      case Err(e) => Err(e)
      case Ok(v) => ReadFrequency(v)
    }

    function WaveformReading(): Result<string>
      reads this, config
    {
      match Read(WaveKey)
      case Err(e) => Err(e)
      case Ok(v) => ReadWaveform(v)
    }

    /** `enable`: the output cannot be switched remotely. */
    method Enable(enaState: Option<bool>) returns (r: Result<bool>)
      ensures r == Err(BuggyHardware)
    {
      r := Err(BuggyHardware);
    }

    /** `frequency(newFreq)`: set (when given) and read back. */
    method Frequency(newFreq: Option<real>) returns (r: Result<real>)
      requires Valid()
      modifies config
      ensures Valid()
      ensures newFreq.None? ==>
        r == old(FrequencyReading()) && config.log == old(config.log) && config.store == old(config.store)
      ensures newFreq.Some? ==>
        match SciSetting(newFreq.value)
        case Err(e) => r == Err(e) && config.log == old(config.log) && config.store == old(config.store)
        case Ok(v) =>
          && r == Ok(newFreq.value)
          && config.log == old(config.log) + [Write(FrqKey, v)]
          && config.store == old(config.store)[FrqKey := v]
      ensures r.Ok? ==> Pow10(-3) < r.value <= Pow10(9)
      ensures newFreq.None? && FrqKey in config.store ==> r.Ok?
    {
      if newFreq.Some? {
        var setting := SciSetting(newFreq.value);
        if setting.Err? {
          return Err(setting.error);
        }
        config.Set(FrqKey, setting.value);
        FrequencyRoundTrip(newFreq.value);
      }
      var stored := Read(FrqKey);
      if stored.Err? {
        return Err(stored.error);
      }
      FrequencyShapeReads(stored.value);
      r := ReadFrequency(stored.value);
    }

    /** `waveform(newWave)`: set a token (when given) and read it back. */
    method Waveform(newWave: Option<string>) returns (r: Result<string>)
      requires Valid()
      modifies config
      ensures Valid()
      ensures newWave.None? ==>
        r == old(WaveformReading()) && config.log == old(config.log) && config.store == old(config.store)
      ensures newWave.Some? && newWave.value !in Tokens ==>
        r == Err(ValueError) && config.log == old(config.log) && config.store == old(config.store)
      ensures newWave.Some? && newWave.value in Tokens ==>
        var v := Num(IndexOf(Tokens, newWave.value).value as real);
        && r == Ok(newWave.value)
        && config.log == old(config.log) + [Write(WaveKey, v)]
        && config.store == old(config.store)[WaveKey := v]
      ensures r.Ok? ==> r.value in Tokens
      ensures newWave.None? && WaveKey in config.store ==> r.Ok?
    {
      if newWave.Some? {
        var iTok := IndexOf(Tokens, newWave.value);
        if iTok.None? {
          return Err(ValueError);
        }
        WaveformRoundTrip(newWave.value);
        config.Set(WaveKey, Num(iTok.value as real));
      }
      var stored := Read(WaveKey);
      if stored.Err? {
        return Err(stored.error);
      }
      WaveShapeReads(stored.value);
      r := ReadWaveform(stored.value);
    }

    /** `amplAndOffs(arg)`, with the amplitude clipped only when it is given. */
    method AmplAndOffs(arg: AmplOffsArg) returns (r: Result<(real, real)>)
      requires Valid()
      modifies config
      ensures Valid()
      ensures r == AmplOffsOutcome(old(config.store), arg).0
      ensures config.log == old(config.log) + AmplOffsOutcome(old(config.store), arg).1
      ensures config.store == Apply(old(config.store), AmplOffsOutcome(old(config.store), arg).1)
      ensures r.Ok? ==> MinAmplitude <= r.value.0 <= MaxAmplitude
    {
      AmplOffsClamped(config.store, arg);
      if arg.Scalar? {
        return Err(ValueError);
      }
      var amplitude, offset := None, None;
      if arg.Pair? {
        amplitude, offset := ClampAmplitude(arg.amplitude), arg.offset;
      }
      r := WriteAndReadBack(amplitude, offset);
    }

    /** The body of `amplAndOffs` once the amplitude is clipped. */
    method WriteAndReadBack(amplitude: Option<real>, offset: Option<real>) returns (r: Result<(real, real)>)
      requires Valid()
      requires amplitude.Some? ==> MinAmplitude <= amplitude.value <= MaxAmplitude
      modifies config
      ensures Valid()
      ensures r == AmplOffsFrom(old(config.store), amplitude, offset).0
      ensures config.log == old(config.log) + AmplOffsFrom(old(config.store), amplitude, offset).1
      ensures config.store == Apply(old(config.store), AmplOffsFrom(old(config.store), amplitude, offset).1)
    {
      ghost var m0, aw := config.store, VoltWrites(AmpKey, amplitude);
      WriteVolts(AmpKey, amplitude);
      var ampl := ReadVolts(config.store, AmpKey);
      if ampl.Err? {
        return Err(ampl.error);
      }
      ghost var m1, l1 := config.store, config.log;
      r := WriteOffsetAndReadBack(ampl.value, offset);
      ghost var ow := OffsFrom(m1, ampl.value, offset).1;
      ApplyAppend(m0, aw, ow);
      AppendAssoc(old(config.log), aw, ow);
    }

    /** The offset half of `amplAndOffs`. */
    method WriteOffsetAndReadBack(ampl: real, offset: Option<real>) returns (r: Result<(real, real)>)
      requires Valid()
      modifies config
      ensures Valid()
      ensures r == OffsFrom(old(config.store), ampl, offset).0
      ensures config.log == old(config.log) + OffsFrom(old(config.store), ampl, offset).1
      ensures config.store == Apply(old(config.store), OffsFrom(old(config.store), ampl, offset).1)
    {
      WriteVolts(OfsKey, offset);
      var offs := ReadVolts(config.store, OfsKey);
      if offs.Err? {
        return Err(offs.error);
      }
      r := Ok((ampl, offs.value));
    }

    /** The `setConfigParam(key, f'{x} V')` of `amplAndOffs`, when x is given. */
    method WriteVolts(key: string, x: Option<real>)
      requires Valid()
      requires key == AmpKey || key == OfsKey
      requires key == AmpKey && x.Some? ==> MinAmplitude <= x.value <= MaxAmplitude
      modifies config
      ensures Valid()
      ensures config.log == old(config.log) + VoltWrites(key, x)
      ensures config.store == Apply(old(config.store), VoltWrites(key, x))
    {
      if x.Some? {
        config.Set(key, Quantity(x.value, "V"));
        ApplySingle(old(config.store), Write(key, Quantity(x.value, "V")));
      }
    }

    /** `duty(d)`: set the duty cycle in percent (when given) and read it back. */
    method Duty(duty: Option<real>) returns (r: Result<Value>)
      requires Valid()
      modifies config
      ensures Valid()
      ensures duty.None? ==>
        r == old(Read(DutyKey)) && config.log == old(config.log) && config.store == old(config.store)
      ensures duty.Some? ==>
        && r == Ok(Quantity(duty.value, "%"))
        && config.log == old(config.log) + [Write(DutyKey, Quantity(duty.value, "%"))]
        && config.store == old(config.store)[DutyKey := Quantity(duty.value, "%")]
    {
      if duty.Some? {
        config.Set(DutyKey, Quantity(duty.value, "%"));
      }
      r := Read(DutyKey);
    }
  }
}
