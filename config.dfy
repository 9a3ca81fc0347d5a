/** The configuration store every driver writes through (`setConfigParam`) and
    reads back (`getConfigParam`): a map from SCPI key to value, together with
    the ordered log of every write made to it. */
module Config {
  import opened Results

  /** A configuration value, in the shapes the drivers write and read.
      `Quantity` stands for the "<number> <unit>" strings the drivers format,
      `Channels` for a per-channel dictionary, `Nothing` for Python's None. */
  datatype Value =
    | Num(r: real)
    | Text(s: string)
    | Flag(b: bool)
    | Quantity(mantissa: real, unit: string)
    | Channels(entries: map<string, Value>)
    | Nothing

  /** One `setConfigParam(key, value)` call. */
  datatype Write = Write(key: string, value: Value)

  /** The store after a sequence of writes: the last write to a key wins. */
  function Apply(m: map<string, Value>, ws: seq<Write>): map<string, Value>
    decreases |ws|
  {
    if ws == [] then m
    else
      var w := ws[|ws| - 1];
      Apply(m, ws[..|ws| - 1])[w.key := w.value]
  }

  /** Writing a then b is writing a, then writing b on the result. */
  lemma {:induction false} ApplyAppend(m: map<string, Value>, a: seq<Write>, b: seq<Write>)
    ensures Apply(m, a + b) == Apply(Apply(m, a), b)
    decreases |b|
  {
    if b == [] {
      assert a + b == a;
    } else {
      ApplyAppend(m, a, b[..|b| - 1]);
      assert (a + b)[..|a + b| - 1] == a + b[..|b| - 1];
    }
  }

  /** A single write updates one key. */
  lemma ApplySingle(m: map<string, Value>, w: Write)
    ensures Apply(m, [w]) == m[w.key := w.value]
  {
    assert [w][..0] == [];
  }

  /** Key is in s exactly when it is in m, with the same value. */
  predicate Keeps(m: map<string, Value>, s: map<string, Value>, key: string) {
    (key in s <==> key in m) && (key in m ==> s[key] == m[key])
  }

  /** Two writes update two keys in order. */
  lemma ApplyPair(m: map<string, Value>, a: Write, b: Write)
    ensures Apply(m, [a, b]) == m[a.key := a.value][b.key := b.value]
  {
    assert [a, b][..1] == [a];
    ApplySingle(m, a);
  }

  /** Regrouping a log of writes changes nothing. */
  lemma AppendRegroup(a: seq<Write>, b: seq<Write>, c: seq<Write>, d: seq<Write>, e: seq<Write>)
    ensures a + b + c + d + e == a + (b + c + d + e)
  {
  }

  /** Six single writes appended one by one make the six-write log. */
  lemma AppendSix(l: seq<Write>, a: Write, b: Write, c: Write, d: Write, e: Write, f: Write)
    ensures l + [a] + [b] + [c] + [d] + [e] + [f] == l + [a, b, c, d, e, f]
  {
  }

  /** A key no write mentions keeps its value. */
  lemma {:induction false} ApplyUntouched(m: map<string, Value>, ws: seq<Write>, key: string)
    requires forall i :: 0 <= i < |ws| ==> ws[i].key != key
    ensures key in Apply(m, ws) <==> key in m
    ensures key in m ==> Apply(m, ws)[key] == m[key]
    decreases |ws|
  {
    if ws != [] {
      ApplyUntouched(m, ws[..|ws| - 1], key);
    }
  }

  /** After the writes, a key holds the value of the last write to it. */
  lemma {:induction false} ApplyLastWrite(m: map<string, Value>, ws: seq<Write>, i: nat)
    requires i < |ws|
    requires forall j :: i < j < |ws| ==> ws[j].key != ws[i].key
    ensures ws[i].key in Apply(m, ws) && Apply(m, ws)[ws[i].key] == ws[i].value
    decreases |ws|
  {
    if i < |ws| - 1 {
      ApplyLastWrite(m, ws[..|ws| - 1], i);
    }
  }

  /** The Python test `v in ['ON', 1, '1']` (and `in [True, 'ON', 1, '1']`,
      the same test since True == 1 == 1.0 in Python). */
  predicate IsOn(v: Value) {
    v == Text("ON") || v == Text("1") || v == Num(1.0) || v == Flag(true)
  }

  /** The store of one instrument. `initial` is what the instrument held before
      the driver's first write. */
  class ConfigStore {
    var store: map<string, Value>
    var log: seq<Write>
    ghost const initial: map<string, Value>

    /** Every value in the store is explained by the log of writes. */
    ghost predicate Valid()
      reads this
    {
      store == Apply(initial, log)
    }

    constructor (snapshot: map<string, Value>)
      ensures Valid()
      ensures store == snapshot && log == [] && initial == snapshot
    {
      store := snapshot;
      log := [];
      initial := snapshot;
    }

    /** The cached value of a key, if any. */
    function Get(key: string): (r: Option<Value>)
      reads this
      ensures r.Some? <==> key in store
      ensures r.Some? ==> r.value == store[key]
    {
      if key in store then Some(store[key]) else None
    }

    /** `setConfigParam(key, value)`. */
    method Set(key: string, value: Value)
      requires Valid()
      modifies this
      ensures Valid()
      ensures store == old(store)[key := value]
      ensures log == old(log) + [Write(key, value)]
    {
      store := store[key := value];
      log := log + [Write(key, value)];
      assert log[..|log| - 1] == old(log);
    }

    /** After writes ws, the store is the old store with ws applied. */
    lemma Followed(oldStore: map<string, Value>, oldLog: seq<Write>, ws: seq<Write>)
      requires Valid()
      requires oldStore == Apply(initial, oldLog)
      requires log == oldLog + ws
      ensures store == Apply(oldStore, ws)
    {
      ApplyAppend(initial, oldLog, ws);
    }
  }
}
