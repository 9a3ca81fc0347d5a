/** The bookkeeping of an `Experiment`: the instruments it expects, where it
    expects them, the connections it needs, and the checks that decide whether
    the lab currently offers all of that. */
module Experiments {
  import opened Results
  import opened Lists

  datatype Instrument = Instrument(name: string)
  datatype Device = Device(name: string)

  /** A host or bench: its name and the instruments it holds. */
  datatype Host = Host(name: string, instruments: set<Instrument>)
  datatype Bench = Bench(name: string, instruments: set<Instrument>)

  /** A connection: device name to port name, as in the lab's dictionaries. */
  datatype Connection = Connection(ends: map<string, string>)

  /** The parts of the lab the checks consult. */
  datatype Lab = Lab(hosts: map<string, Host>, benches: map<string, Bench>, connections: seq<Connection>)

  /** One `(instrument, host, bench)` entry of `instruments_requirements`. */
  datatype Requirement = Requirement(instrument: Instrument, host: Option<Host>, bench: Option<Bench>)

  /** The validation closures `registerInstrument` and `registerConnections`
      append. A connection check holds the lab's connections as they were
      when it was registered (a default argument); the others consult the
      lab when they are evaluated. */
  datatype Check =
    | HostInLab(listedHost: Host)
    | BenchInLab(listedBench: Bench)
    | InstrumentHooked(instrument: Instrument, within: Option<Host>, on: Option<Bench>)
    | ConnectionPresent(connection: Connection, labConnections: seq<Connection>)

  /** Calling one check against the lab; a name the lab does not know raises
      KeyError. */
  function Evaluate(check: Check, lab: Lab): Result<bool> {
    match check
    case HostInLab(h) =>
      if h.name in lab.hosts then Ok(h == lab.hosts[h.name]) else Err(KeyError)
    case BenchInLab(b) =>
      if b.name in lab.benches then Ok(b == lab.benches[b.name]) else Err(KeyError)
    case InstrumentHooked(i, h, b) =>
      Ok((h.None? || i in h.value.instruments) && (b.None? || i in b.value.instruments))
    case ConnectionPresent(c, conns) =>
      Ok(c in conns)
  }

  /** `validate`: `valid *= expr()` over every check in order, without
      short-circuit, so the first exception raised escapes. */
  function AllChecks(cs: seq<Check>, lab: Lab): Result<bool>
    decreases |cs|
  {
    if cs == [] then Ok(true)
    else
      match AllChecks(cs[..|cs| - 1], lab)
      case Err(e) => Err(e)
      case Ok(v) =>
        match Evaluate(cs[|cs| - 1], lab)
        case Err(e) => Err(e)
        case Ok(b) => Ok(v && b)
  }

  /** Validation succeeds exactly when every check can be evaluated, and it is
      true exactly when every check is true; so it is true when there are none. */
  lemma {:induction false} AllChecksMeaning(cs: seq<Check>, lab: Lab)
    ensures AllChecks(cs, lab).Ok? <==> forall i :: 0 <= i < |cs| ==> Evaluate(cs[i], lab).Ok?
    ensures AllChecks(cs, lab) == Ok(true) <==> forall i :: 0 <= i < |cs| ==> Evaluate(cs[i], lab) == Ok(true)
    decreases |cs|
  {
    if cs != [] {
      var init := cs[..|cs| - 1];
      AllChecksMeaning(init, lab);
      assert forall i :: 0 <= i < |init| ==> init[i] == cs[i];
    }
  }

  /** The checks of `registerInstrument(i, host, bench)`, in order. */
  function InstrumentChecks(i: Instrument, host: Option<Host>, bench: Option<Bench>): seq<Check> {
    (if host.Some? then [HostInLab(host.value)] else [])
    + (if bench.Some? then [BenchInLab(bench.value)] else [])
    + [InstrumentHooked(i, host, bench)]
  }

  /** The checks of `registerInstruments(xs, host, bench)`. */
  function InstrumentsChecks(xs: seq<Instrument>, host: Option<Host>, bench: Option<Bench>): seq<Check>
    decreases |xs|
  {
    if xs == [] then []
    else InstrumentsChecks(xs[..|xs| - 1], host, bench) + InstrumentChecks(xs[|xs| - 1], host, bench)
  }

  /** One more instrument adds its own checks at the end. */
  lemma InstrumentsChecksStep(xs: seq<Instrument>, i: nat, host: Option<Host>, bench: Option<Bench>)
    requires i < |xs|
    ensures InstrumentsChecks(xs[..i + 1], host, bench) == InstrumentsChecks(xs[..i], host, bench) + InstrumentChecks(xs[i], host, bench)
  {
    assert xs[..i + 1][..i] == xs[..i];
  }

  /** The `instruments_requirements` entries of `registerInstruments(xs, host, bench)`. */
  function RequirementsOf(xs: seq<Instrument>, host: Option<Host>, bench: Option<Bench>): (r: seq<Requirement>)
    ensures |r| == |xs|
    ensures forall k :: 0 <= k < |xs| ==> r[k] == Requirement(xs[k], host, bench)
  {
    seq(|xs|, k requires 0 <= k < |xs| => Requirement(xs[k], host, bench))
  }

  /** A lab holds a host when it lists that very host under its name. */
  predicate HostListed(lab: Lab, h: Host) {
    h.name in lab.hosts && lab.hosts[h.name] == h
  }

  predicate BenchListed(lab: Lab, b: Bench) {
    b.name in lab.benches && lab.benches[b.name] == b
  }

  /** An instrument's checks pass exactly when each given host or bench is
      listed in the lab and holds the instrument. */
  lemma InstrumentChecksMeaning(i: Instrument, host: Option<Host>, bench: Option<Bench>, lab: Lab)
    ensures |InstrumentChecks(i, host, bench)| == 1 + (if host.Some? then 1 else 0) + (if bench.Some? then 1 else 0)
    ensures AllChecks(InstrumentChecks(i, host, bench), lab) == Ok(true) <==>
      && (host.Some? ==> HostListed(lab, host.value) && i in host.value.instruments)
      && (bench.Some? ==> BenchListed(lab, bench.value) && i in bench.value.instruments)
  {
    var cs := InstrumentChecks(i, host, bench);
    AllChecksMeaning(cs, lab);
    var last := |cs| - 1;
    assert cs[last] == InstrumentHooked(i, host, bench);
    if host.Some? {
      assert cs[0] == HostInLab(host.value);
    }
    if bench.Some? {
      assert cs[if host.Some? then 1 else 0] == BenchInLab(bench.value);
    }
  }

  /** The connection checks of `registerConnections(cs)`: one per argument,
      against the lab's connections at registration. */
  function ConnectionChecks(cs: seq<Connection>, labConnections: seq<Connection>): (r: seq<Check>)
    ensures |r| == |cs|
    ensures forall k :: 0 <= k < |cs| ==> r[k] == ConnectionPresent(cs[k], labConnections)
  {
    seq(|cs|, k requires 0 <= k < |cs| => ConnectionPresent(cs[k], labConnections))
  }

  /** One more connection adds one check at the end. */
  lemma ConnectionChecksStep(cs: seq<Connection>, i: nat, labConnections: seq<Connection>)
    requires i < |cs|
    ensures ConnectionChecks(cs[..i + 1], labConnections)
      == ConnectionChecks(cs[..i], labConnections) + [ConnectionPresent(cs[i], labConnections)]
  {
    var a, b := ConnectionChecks(cs[..i + 1], labConnections), ConnectionChecks(cs[..i], labConnections);
    assert forall k :: 0 <= k < i ==> a[k] == b[k];
  }

  /** The connection checks pass exactly when the lab offered every connection. */
  lemma ConnectionChecksMeaning(cs: seq<Connection>, labConnections: seq<Connection>, lab: Lab)
    ensures AllChecks(ConnectionChecks(cs, labConnections), lab) == Ok(true) <==>
      forall k :: 0 <= k < |cs| ==> cs[k] in labConnections
  {
    var checks := ConnectionChecks(cs, labConnections);
    AllChecksMeaning(checks, lab);
    assert forall k :: 0 <= k < |cs| ==> Evaluate(checks[k], lab) == Ok(cs[k] in labConnections);
  }

  /** The `connections` list after `registerConnections(add)`: each new
      connection appended in order, a repeated one skipped. */
  function AppendNew(xs: seq<Connection>, add: seq<Connection>): seq<Connection>
    decreases |add|
  {
    if add == [] then xs
    else
      var prev := AppendNew(xs, add[..|add| - 1]);
      var c := add[|add| - 1];
      if c in prev then prev else prev + [c]
  }

  /** One more connection is appended only when it is new. */
  lemma AppendNewStep(xs: seq<Connection>, cs: seq<Connection>, i: nat)
    requires i < |cs|
    ensures var prev := AppendNew(xs, cs[..i]);
      AppendNew(xs, cs[..i + 1]) == if cs[i] in prev then prev else prev + [cs[i]]
  {
    assert cs[..i + 1][..i] == cs[..i];
  }

  /** The list keeps its old entries in place, ends up with exactly the old
      and the added connections, and never gains a duplicate. */
  lemma {:induction false} AppendNewMeaning(xs: seq<Connection>, add: seq<Connection>)
    ensures |xs| <= |AppendNew(xs, add)| && AppendNew(xs, add)[..|xs|] == xs
    ensures forall c :: c in AppendNew(xs, add) <==> c in xs || c in add
    ensures NoDuplicates(xs) ==> NoDuplicates(AppendNew(xs, add))
    decreases |add|
  {
    if add != [] {
      var init := add[..|add| - 1];
      AppendNewMeaning(xs, init);
      var prev := AppendNew(xs, init);
      var c := add[|add| - 1];
      assert forall d :: d in add <==> d in init || d == c;
      if c !in prev {
        assert (prev + [c])[..|xs|] == prev[..|xs|];
      }
    }
  }

  /** Connections already present are not appended again. */
  lemma {:induction false} AppendNewPresent(ys: seq<Connection>, add: seq<Connection>)
    requires forall c :: c in add ==> c in ys
    ensures AppendNew(ys, add) == ys
    decreases |add|
  {
    if add != [] {
      AppendNewPresent(ys, add[..|add| - 1]);
    }
  }

  /** Registering the same connections twice leaves the list as registering
      them once. */
  lemma AppendNewIdempotent(xs: seq<Connection>, add: seq<Connection>)
    ensures AppendNew(AppendNew(xs, add), add) == AppendNew(xs, add)
  {
    AppendNewMeaning(xs, add);
    AppendNewPresent(AppendNew(xs, add), add);
  }

  /** `str(experiment)`. */
  function Describe(name: Option<string>, className: string): (s: string)
    ensures |s| >= 11 && s[..11] == "Experiment "
    ensures name.Some? ==> s[11..] == name.value
    ensures name.None? ==> s[11..] == className
  {
    "Experiment " + (if name.Some? then name.value else className)
  }

  /** Two named experiments print alike only when their names agree. */
  lemma DescribeInjective(a: string, b: string, className: string)
    ensures Describe(Some(a), className) == Describe(Some(b), className) <==> a == b
  {
    var s, t := Describe(Some(a), className), Describe(Some(b), className);
    if s == t {
      assert s[11..] == t[11..];
    }
  }

  class Experiment {
    var instruments: seq<Instrument>
    var requirements: seq<Requirement>
    var devices: seq<Device>
    var validateExprs: seq<Check>
    var connections: seq<Connection>
    var valid: Option<bool>
    var labOverride: Option<Lab>
    var name: Option<string>

    /** The experiment's connections are free of duplicates. */
    ghost predicate Valid()
      reads this
    {
      NoDuplicates(connections)
    }

    /** `__init__` of a subclass whose `startup` returns without touching the
        lists (the base class's `startup` raises NotImplementedError). */
    constructor (instruments: Option<seq<Instrument>>, devices: Option<seq<Device>>, name: Option<string>)
      ensures Valid()
      ensures this.instruments == (if instruments.Some? then instruments.value else [])
      ensures this.devices == (if devices.Some? then devices.value else [])
      ensures requirements == [] && validateExprs == [] && connections == []
      ensures valid.None? && labOverride.None? && this.name == name
    {
      this.instruments := if instruments.Some? then instruments.value else [];
      this.devices := if devices.Some? then devices.value else [];
      requirements, validateExprs, connections := [], [], [];
      valid, labOverride := None, None;
      this.name := name;
    }

    /** The `lab` property: the experiment's own lab once set, else the global one. */
    function Lab(globalLab: Lab): (lab: Lab)
      reads this
      ensures labOverride.None? ==> lab == globalLab
      ensures labOverride.Some? ==> lab == labOverride.value
    {
      if labOverride.None? then globalLab else labOverride.value
    }

    /** The `lab` setter: only the first assignment takes effect. */
    method SetLab(value: Lab)
      modifies this
      ensures labOverride == if old(labOverride).None? then Some(value) else old(labOverride)
      ensures instruments == old(instruments) && requirements == old(requirements)
      ensures validateExprs == old(validateExprs) && connections == old(connections)
      ensures valid == old(valid) && name == old(name) && devices == old(devices)
    {
      if labOverride.None? {
        labOverride := Some(value);
      }
    }

    method RegisterInstrument(instrument: Instrument, host: Option<Host>, bench: Option<Bench>) returns (r: Outcome)
      requires Valid()
      modifies this
      ensures Valid()
      ensures host.None? && bench.None? ==>
        && r == Fail(ValueError)
        && instruments == old(instruments) && requirements == old(requirements)
        && validateExprs == old(validateExprs)
      ensures host.Some? || bench.Some? ==>
        && r == Pass
        && instruments == old(instruments) + [instrument]
        && requirements == old(requirements) + [Requirement(instrument, host, bench)]
        && validateExprs == old(validateExprs) + InstrumentChecks(instrument, host, bench)
      ensures connections == old(connections) && valid == old(valid)
      ensures labOverride == old(labOverride) && name == old(name) && devices == old(devices)
    {
      if host.None? && bench.None? {
        return Fail(ValueError);
      }
      if host.Some? {
        validateExprs := validateExprs + [HostInLab(host.value)];
      }
      if bench.Some? {
        validateExprs := validateExprs + [BenchInLab(bench.value)];
      }
      validateExprs := validateExprs + [InstrumentHooked(instrument, host, bench)];
      instruments := instruments + [instrument];
      requirements := requirements + [Requirement(instrument, host, bench)];
      r := Pass;
    }

    /** `registerInstruments(*xs, host, bench)`: each instrument in turn; the
        first registration raises when neither host nor bench is given. */
    method RegisterInstruments(xs: seq<Instrument>, host: Option<Host>, bench: Option<Bench>) returns (r: Outcome)
      requires Valid()
      modifies this
      ensures Valid()
      ensures host.None? && bench.None? && xs != [] ==>
        && r == Fail(ValueError)
        && instruments == old(instruments) && requirements == old(requirements)
        && validateExprs == old(validateExprs)
      ensures host.Some? || bench.Some? || xs == [] ==>
        && r == Pass
        && instruments == old(instruments) + xs
        && requirements == old(requirements) + RequirementsOf(xs, host, bench)
        && validateExprs == old(validateExprs) + InstrumentsChecks(xs, host, bench)
      ensures connections == old(connections) && valid == old(valid)
      ensures labOverride == old(labOverride) && name == old(name) && devices == old(devices)
    {
      for i := 0 to |xs|
        invariant Valid()
        invariant host.None? && bench.None? ==> i == 0
        invariant instruments == old(instruments) + xs[..i]
        invariant requirements == old(requirements) + RequirementsOf(xs[..i], host, bench)
        invariant validateExprs == old(validateExprs) + InstrumentsChecks(xs[..i], host, bench)
        invariant connections == old(connections) && valid == old(valid)
        invariant labOverride == old(labOverride) && name == old(name) && devices == old(devices)
      {
        var step := RegisterInstrument(xs[i], host, bench);
        if step.Fail? {
          return step;
        }
        var done, x := xs[..i], xs[i];
        assert xs[..i + 1] == done + [x];
        assert RequirementsOf(xs[..i + 1], host, bench) == RequirementsOf(done, host, bench) + [Requirement(x, host, bench)];
        InstrumentsChecksStep(xs, i, host, bench);
        AppendAssoc(old(instruments), done, [x]);
        AppendAssoc(old(requirements), RequirementsOf(done, host, bench), [Requirement(x, host, bench)]);
        AppendAssoc(old(validateExprs), InstrumentsChecks(done, host, bench), InstrumentChecks(x, host, bench));
      }
      assert xs[..|xs|] == xs;
      r := Pass;
    }

    /** `registerConnections(*cs)`: new connections are appended, repeated ones
        only warned about, and every argument adds a check. */
    method RegisterConnections(cs: seq<Connection>, globalLab: Lab)
      requires Valid()
      modifies this
      ensures Valid()
      ensures connections == AppendNew(old(connections), cs)
      ensures validateExprs == old(validateExprs) + ConnectionChecks(cs, old(Lab(globalLab)).connections)
      ensures instruments == old(instruments) && requirements == old(requirements) && valid == old(valid)
      ensures labOverride == old(labOverride) && name == old(name) && devices == old(devices)
    {
      for i := 0 to |cs|
        invariant Valid()
        invariant connections == AppendNew(old(connections), cs[..i])
        invariant validateExprs == old(validateExprs) + ConnectionChecks(cs[..i], Lab(globalLab).connections)
        invariant instruments == old(instruments) && requirements == old(requirements) && valid == old(valid)
        invariant labOverride == old(labOverride) && name == old(name) && devices == old(devices)
      {
        if cs[i] !in connections {
          NoDuplicatesSnoc(connections, cs[i]);
          connections := connections + [cs[i]];
        }
        validateExprs := validateExprs + [ConnectionPresent(cs[i], Lab(globalLab).connections)];
        AppendNewStep(old(connections), cs, i);
        ghost var labConnections := Lab(globalLab).connections;
        ConnectionChecksStep(cs, i, labConnections);
        AppendAssoc(old(validateExprs), ConnectionChecks(cs[..i], labConnections), [ConnectionPresent(cs[i], labConnections)]);
      }
      assert cs[..|cs|] == cs;
    }

    /** `registerConnection(c)`. */
    method RegisterConnection(c: Connection, globalLab: Lab)
      requires Valid()
      modifies this
      ensures Valid()
      ensures connections == AppendNew(old(connections), [c])
      ensures validateExprs == old(validateExprs) + [ConnectionPresent(c, old(Lab(globalLab)).connections)]
      ensures instruments == old(instruments) && requirements == old(requirements) && valid == old(valid)
      ensures labOverride == old(labOverride) && name == old(name) && devices == old(devices)
    {
      RegisterConnections([c], globalLab);
    }

    /** `validate`: the conjunction of every registered check. */
    method Validate(globalLab: Lab) returns (r: Result<bool>)
      ensures r == AllChecks(validateExprs, Lab(globalLab))
    {
      var lab := Lab(globalLab);
      var acc := true;
      for i := 0 to |validateExprs|
        invariant AllChecks(validateExprs[..i], lab) == Ok(acc)
      {
        var e := Evaluate(validateExprs[i], lab);
        assert validateExprs[..i + 1][..i] == validateExprs[..i];
        if e.Err? {
          assert AllChecks(validateExprs[..i + 1], lab) == Err(e.error);
          AllChecksErrorSticks(validateExprs, i + 1, lab);
          return Err(e.error);
        }
        acc := acc && e.value;
      }
      assert validateExprs[..|validateExprs|] == validateExprs;
      r := Ok(acc);
    }

    /** `is_valid(reset)`: recompute (always when reset, else only when nothing
        is cached) and cache the result. */
    method IsValid(globalLab: Lab, reset: bool := true) returns (r: Result<bool>)
      modifies this
      ensures !reset && old(valid).Some? ==> r == Ok(old(valid).value) && valid == old(valid)
      ensures reset || old(valid).None? ==>
        && r == AllChecks(validateExprs, Lab(globalLab))
        && valid == (if r.Ok? then Some(r.value) else None)
      ensures instruments == old(instruments) && requirements == old(requirements)
      ensures validateExprs == old(validateExprs) && connections == old(connections)
      ensures labOverride == old(labOverride) && name == old(name) && devices == old(devices)
    {
      if reset {
        valid := None;
      }
      if valid.None? {
        var v := Validate(globalLab);
        if v.Err? {
          return Err(v.error);
        }
        valid := Some(v.value);
      }
      r := Ok(valid.value);
    }
  }

  /** Once a prefix of the checks raises, the whole validation raises the same. */
  lemma {:induction false} AllChecksErrorSticks(cs: seq<Check>, n: nat, lab: Lab)
    requires n <= |cs|
    requires AllChecks(cs[..n], lab).Err?
    ensures AllChecks(cs, lab) == AllChecks(cs[..n], lab)
    decreases |cs| - n
  {
    if n < |cs| {
      assert cs[..n + 1][..n] == cs[..n];
      AllChecksErrorSticks(cs, n + 1, lab);
    } else {
      assert cs[..n] == cs;
    }
  }
}
