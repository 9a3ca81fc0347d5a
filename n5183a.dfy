/** The Agilent N5183A signal generator driver: amplitude and frequency with
    the instrument's limits, the output switch, and the CW/sweep mode. */
module N5183A {
  import opened Results
  import opened Numbers
  import opened Config

  const MinAmplitude: real := -20.0
  const MaxAmplitude: real := 15.0
  const MaxFrequency: real := 40000000000.0

  const AmplKey := "POW:AMPL"
  const CwKey := "FREQ:CW"
  const ModeKey := "FREQ:MODE"
  const OutputKey := "OUTP:STAT"
  const ListTypeKey := "LIST:TYPE"
  const StartKey := "FREQ:STAR"
  const StopKey := "FREQ:STOP"
  const PointsKey := "SWE:POIN"
  const DwellKey := "SWE:DWEL"

  /** The amplitude `amplitude(a)` writes, in dBm: a held to [-20, 15]. */
  function AmplitudeSetting(a: real): (c: real)
    ensures MinAmplitude <= c <= MaxAmplitude
    ensures MinAmplitude <= a <= MaxAmplitude ==> c == a
    ensures a > MaxAmplitude ==> c == MaxAmplitude
    ensures a < MinAmplitude ==> c == MinAmplitude
  {
    var high := if a > MaxAmplitude then MaxAmplitude else a;
    if high < MinAmplitude then MinAmplitude else high
  }

  /** The frequency `frequency(f)` writes, in Hz: f capped at 40 GHz, with no
      lower bound. */
  function FrequencySetting(f: real): (c: real)
    ensures c <= MaxFrequency && c <= f
    ensures f <= MaxFrequency ==> c == f
    ensures f > MaxFrequency ==> c == MaxFrequency
  {
    if f > MaxFrequency then MaxFrequency else f
  }

  /** Setting a held value again changes nothing. */
  lemma SettingsIdempotent(a: real, f: real)
    ensures AmplitudeSetting(AmplitudeSetting(a)) == AmplitudeSetting(a)
    ensures FrequencySetting(FrequencySetting(f)) == FrequencySetting(f)
  {
  }

  /** `float(retStr.split(' ')[0])` on the "<a> dBm" the driver writes. */
  function ReadAmplitude(v: Value): (r: Result<real>)
    ensures v.Quantity? <==> r.Ok?
    ensures v.Quantity? ==> r.value == v.mantissa
  {
    match v
    case Quantity(m, _) => Ok(m)
    case _ => Err(AttributeError)
  }

  /** The writes of `frequency(f)`: the capped frequency, then CW mode. */
  function FrequencyWrites(f: real): seq<Write> {
    [Write(CwKey, Num(FrequencySetting(f))), Write(ModeKey, Text("CW"))]
  }

  /** The writes of `sweepSetup`, in order. */
  function SweepSetupWrites(startFreq: real, stopFreq: real, nPts: int, dwell: real): seq<Write> {
    [ Write(ListTypeKey, Text("STEP")),
      Write(StartKey, Num(startFreq)),
      Write(StopKey, Num(stopFreq)),
      Write(PointsKey, Num(nPts as real)),
      Write(DwellKey, Num(dwell)) ]
  }

  /** Whether a FREQ:MODE value means sweeping. */
  predicate IsSweeping(v: Value) {
    v == Text("LIST")
  }

  /** After `frequency(f)` the capped value is at FREQ:CW and the generator is
      in CW mode, so `sweepEnable()` reads false. */
  lemma FrequencyLeavesSweep(m: map<string, Value>, f: real)
    ensures var s := Apply(m, FrequencyWrites(f));
      && CwKey in s && s[CwKey] == Num(FrequencySetting(f))
      && ModeKey in s && !IsSweeping(s[ModeKey])
  {
    var ws := FrequencyWrites(f);
    ApplyLastWrite(m, ws, 0);
    ApplyLastWrite(m, ws, 1);
  }

  /** `sweepSetup` sets the five sweep keys and leaves the mode, and so whether
      the generator sweeps, as it was. */
  lemma SweepSetupLeavesMode(m: map<string, Value>, startFreq: real, stopFreq: real, nPts: int, dwell: real)
    ensures var s := Apply(m, SweepSetupWrites(startFreq, stopFreq, nPts, dwell));
      && (ModeKey in s <==> ModeKey in m)
      && (ModeKey in m ==> s[ModeKey] == m[ModeKey])
      && StartKey in s && s[StartKey] == Num(startFreq)
      && StopKey in s && s[StopKey] == Num(stopFreq)
      && PointsKey in s && s[PointsKey] == Num(nPts as real)
      && DwellKey in s && s[DwellKey] == Num(dwell)
  {
    var ws := SweepSetupWrites(startFreq, stopFreq, nPts, dwell);
    ApplyUntouched(m, ws, ModeKey);
    ApplyLastWrite(m, ws, 1);
    ApplyLastWrite(m, ws, 2);
    ApplyLastWrite(m, ws, 3);
    ApplyLastWrite(m, ws, 4);
  }

  class Generator {
    const config: ConfigStore

    ghost predicate Valid()
      reads this, config
    {
      config.Valid()
    }

    /** The driver over the instrument's current settings. */
    constructor (snapshot: map<string, Value>)
      ensures Valid() && fresh(config)
      ensures config.store == snapshot && config.log == []
    {
      config := new ConfigStore(snapshot);
    }

    /** `getConfigParam(key)`; a key the instrument never reported reads as None. */
    function Read(key: string): Value
      reads this, config
    {
      if key in config.store then config.store[key] else Nothing
    }

    /** `amplitude(amp)`: set the held amplitude (when given), read it back. */
    method Amplitude(amp: Option<real>) returns (r: Result<real>)
      requires Valid()
      modifies config
      ensures Valid()
      ensures amp.None? ==>
        r == ReadAmplitude(old(Read(AmplKey))) && config.log == old(config.log) && config.store == old(config.store)
      ensures amp.Some? ==>
        var v := Quantity(AmplitudeSetting(amp.value), "dBm");
        && r == Ok(AmplitudeSetting(amp.value))
        && config.log == old(config.log) + [Write(AmplKey, v)]
        && config.store == old(config.store)[AmplKey := v]
    {
      if amp.Some? {
        var a := amp.value;
        if a > MaxAmplitude {
          a := MaxAmplitude;
        }
        if a < MinAmplitude {
          a := MinAmplitude;
        }
        config.Set(AmplKey, Quantity(a, "dBm"));
      }
      r := ReadAmplitude(Read(AmplKey));
    }

    /** `sweepEnable(swpState)`: switch between sweep and CW (when given);
        the result is whether the mode reads as sweeping. */
    method SweepEnable(swpState: Option<bool>) returns (r: bool)
      requires Valid()
      modifies config
      ensures Valid()
      ensures swpState.None? ==>
        r == IsSweeping(old(Read(ModeKey))) && config.log == old(config.log) && config.store == old(config.store)
      ensures swpState.Some? ==>
        var v := Text(if swpState.value then "LIST" else "CW");
        && r == swpState.value
        && config.log == old(config.log) + [Write(ModeKey, v)]
        && config.store == old(config.store)[ModeKey := v]
    {
      if swpState.Some? {
        config.Set(ModeKey, Text(if swpState.value then "LIST" else "CW"));
      }
      r := IsSweeping(Read(ModeKey));
    }

    /** `frequency(freq)`: set the capped frequency and leave sweep mode (when
        given), read the frequency back. */
    method Frequency(freq: Option<real>) returns (r: Value)
      requires Valid()
      modifies config
      ensures Valid()
      ensures freq.None? ==>
        r == old(Read(CwKey)) && config.log == old(config.log) && config.store == old(config.store)
      ensures freq.Some? ==>
        && r == Num(FrequencySetting(freq.value))
        && config.log == old(config.log) + FrequencyWrites(freq.value)
        && config.store == Apply(old(config.store), FrequencyWrites(freq.value))
        && !IsSweeping(Read(ModeKey))
    {
      if freq.Some? {
        var f := freq.value;
        if f > MaxFrequency {
          f := MaxFrequency;
        }
        var wasSweeping := SweepEnable(None);
        config.Set(CwKey, Num(f));
        var _ := SweepEnable(Some(false));
        FrequencyLeavesSweep(old(config.store), freq.value);
        config.Followed(old(config.store), old(config.log), FrequencyWrites(freq.value));
      }
      r := Read(CwKey);
    }

    /** `enable(enaState)`: switch the output (when given); the result is
        whether the output state reads as on. */
    method Enable(enaState: Option<bool>) returns (r: bool)
      requires Valid()
      modifies config
      ensures Valid()
      ensures enaState.None? ==>
        r == IsOn(old(Read(OutputKey))) && config.log == old(config.log) && config.store == old(config.store)
      ensures enaState.Some? ==>
        var v := Text(if enaState.value then "ON" else "OFF");
        && r == enaState.value
        && config.log == old(config.log) + [Write(OutputKey, v)]
        && config.store == old(config.store)[OutputKey := v]
    {
      if enaState.Some? {
        config.Set(OutputKey, Text(if enaState.value then "ON" else "OFF"));
      }
      r := IsOn(Read(OutputKey));
    }

    /** `sweepSetup`: configure a stepped sweep without starting it. */
    method SweepSetup(startFreq: real, stopFreq: real, nPts: int := 100, dwell: real := 0.1)
      requires Valid()
      modifies config
      ensures Valid()
      ensures config.log == old(config.log) + SweepSetupWrites(startFreq, stopFreq, nPts, dwell)
      ensures config.store == Apply(old(config.store), SweepSetupWrites(startFreq, stopFreq, nPts, dwell))
      ensures Read(ModeKey) == old(Read(ModeKey))
    {
      config.Set(ListTypeKey, Text("STEP"));
      config.Set(StartKey, Num(startFreq));
      config.Set(StopKey, Num(stopFreq));
      config.Set(PointsKey, Num(nPts as real));
      config.Set(DwellKey, Num(dwell));
      config.Followed(old(config.store), old(config.log), SweepSetupWrites(startFreq, stopFreq, nPts, dwell));
      SweepSetupLeavesMode(old(config.store), startFreq, stopFreq, nPts, dwell);
    }
  }
}
