/** Point processes and the resizable group of them whose size is an optimizer
    parameter (point_process.py).

    A group is rebuilt from nothing on every `instantiate`: it creates
    `int(round(n))` point processes, wires its stimulus source to their locations,
    and creates one parameter object per fixed and per free parameter name. */
module PointProcess {
  import opened Common
  import opened Neuron
  import SpikeTrain

  // ---- The entry count ----

  /** Python's `round` on a float: to the nearest integer, ties to the even one. */
  function RoundHalfEven(x: real): (r: int)
    ensures -0.5 <= x - r as real <= 0.5
    ensures (x - r as real == 0.5 || x - r as real == -0.5) ==> r % 2 == 0
  {
    var f := x.Floor;
    var d := x - f as real;
    if d < 0.5 then f
    else if d > 0.5 then f + 1
    else if f % 2 == 0 then f
    else f + 1
  }

  /** The two properties in the contract of `RoundHalfEven` pin the result down. */
  lemma RoundHalfEvenUnique(x: real, r: int)
    requires -0.5 <= x - r as real <= 0.5
    requires (x - r as real == 0.5 || x - r as real == -0.5) ==> r % 2 == 0
    ensures r == RoundHalfEven(x)
  {
    var q := RoundHalfEven(x);
    assert -1 <= r - q <= 1;
  }

  /** `len([None] * int(round(n)))` (point_process.py:51): the rounded count, and no
      entries at all for a negative one. */
  function EntryCount(n: real): (c: nat)
    ensures n <= 0.5 ==> c == 0
    ensures n > 0.5 ==> 0 < c && -0.5 <= n - c as real <= 0.5
    ensures n > 0.5 ==> c == RoundHalfEven(n)
  {
    var r := RoundHalfEven(n);
    if r < 0 then 0 else r
  }

  /** A count given as a Python `int` is used as it is, and a negative one gives no entries. */
  lemma EntryCountOfInteger(k: int)
    ensures EntryCount(k as real) == if k < 0 then 0 else k
  {
    RoundHalfEvenUnique(k as real, k);
  }

  // ---- One point process ----

  /** The constructor's `locations` argument: one location, or a list of them. */
  datatype LocationsArg = Single(location: SectionLocation) | List(locations: seq<SectionLocation>)

  datatype Status = Built | Live | Released

  /** `NrnPointProcess` (point_process.py:7-18): a mechanism handle on the group's
      locations and the location handle that names it. */
  class NrnPointProcess {
    const suffix: string
    const sections: seq<SectionLocation>
    const location: PointLocation
    var status: Status

    constructor (suffix: string, sections: seq<SectionLocation>)
      ensures this.suffix == suffix && this.sections == sections && status == Built
      ensures fresh(location)
    {
      this.suffix := suffix;
      this.sections := sections;
      location := new PointLocation(suffix, sections);
      status := Built;
    }

    method Instantiate(sim: Simulator)
      modifies this, sim
      ensures status == Live
      ensures sim.events == old(sim.events) + [MechanismInstantiated(location)]
    {
      status := Live;
      sim.events := sim.events + [MechanismInstantiated(location)];
    }

    method Destroy(sim: Simulator)
      modifies this, sim
      ensures status == Released
      ensures sim.events == old(sim.events) + [MechanismDestroyed(location)]
    {
      status := Released;
      sim.events := sim.events + [MechanismDestroyed(location)];
    }
  }

  /** `[pp.location for pp in entries]`. */
  function Locations(entries: seq<NrnPointProcess>): seq<PointLocation> {
    seq(|entries|, i requires 0 <= i < |entries| => entries[i].location)
  }

  /** The mechanism instantiations of `entries`, in order. */
  function InstantiatedEvents(entries: seq<NrnPointProcess>): (r: seq<Event>)
    ensures |r| == |entries|
    decreases |entries|
  {
    if entries == [] then []
    else
      var last := |entries| - 1;
      InstantiatedEvents(entries[..last]) + [MechanismInstantiated(entries[last].location)]
  }

  /** The mechanism destructions of `entries`, in order. */
  function DestroyedEvents(entries: seq<NrnPointProcess>): (r: seq<Event>)
    ensures |r| == |entries|
    decreases |entries|
  {
    if entries == [] then []
    else
      var last := |entries| - 1;
      DestroyedEvents(entries[..last]) + [MechanismDestroyed(entries[last].location)]
  }

  /** The `i`-th recorded instantiation is that of entry `i`'s mechanism. */
  lemma {:induction false} InstantiatedEventsAt(entries: seq<NrnPointProcess>)
    ensures forall i :: 0 <= i < |entries| ==> InstantiatedEvents(entries)[i] == MechanismInstantiated(entries[i].location)
    decreases |entries|
  {
    if entries != [] {
      var last := |entries| - 1;
      InstantiatedEventsAt(entries[..last]);
      assert forall i :: 0 <= i < last ==> entries[..last][i] == entries[i];
    }
  }

  /** The `i`-th recorded destruction is that of entry `i`'s mechanism. */
  lemma {:induction false} DestroyedEventsAt(entries: seq<NrnPointProcess>)
    ensures forall i :: 0 <= i < |entries| ==> DestroyedEvents(entries)[i] == MechanismDestroyed(entries[i].location)
    decreases |entries|
  {
    if entries != [] {
      var last := |entries| - 1;
      DestroyedEventsAt(entries[..last]);
      assert forall i :: 0 <= i < last ==> entries[..last][i] == entries[i];
    }
  }

  /** A mechanism event names `l` exactly when `l` is the location of one of `entries`. */
  lemma {:induction false} InstantiatedEventsFor(entries: seq<NrnPointProcess>, l: PointLocation)
    ensures MechanismInstantiated(l) in InstantiatedEvents(entries) <==> l in Locations(entries)
    ensures MechanismDestroyed(l) !in InstantiatedEvents(entries)
    decreases |entries|
  {
    if entries != [] {
      var last := |entries| - 1;
      InstantiatedEventsFor(entries[..last], l);
      LocationsPrefix(entries);
    }
  }

  lemma {:induction false} DestroyedEventsFor(entries: seq<NrnPointProcess>, l: PointLocation)
    ensures MechanismDestroyed(l) in DestroyedEvents(entries) <==> l in Locations(entries)
    ensures MechanismInstantiated(l) !in DestroyedEvents(entries)
    decreases |entries|
  {
    if entries != [] {
      var last := |entries| - 1;
      DestroyedEventsFor(entries[..last], l);
      LocationsPrefix(entries);
    }
  }

  lemma LocationsPrefix(entries: seq<NrnPointProcess>)
    requires entries != []
    ensures Locations(entries) == Locations(entries[..|entries| - 1]) + [entries[|entries| - 1].location]
  {
  }

  // ---- The parameter objects ----

  /** A parameter name and the value its parameter object is created with. */
  type Binding = (string, real)

  /** `param_obj` after `_mk_parameter` has run for each binding in turn. */
  function Bind(table: map<string, PointParameter>, bindings: seq<Binding>, locs: seq<PointLocation>): (r: map<string, PointParameter>)
    decreases |bindings|
  {
    if bindings == [] then table
    else
      var last := |bindings| - 1;
      Bind(table, bindings[..last], locs)[bindings[last].0 := PointParameter(bindings[last].0, bindings[last].1, true, locs)]
  }

  /** The parameter instantiations of `_mk_parameter` for each binding in turn. */
  function ParamEvents(bindings: seq<Binding>, locs: seq<PointLocation>): (r: seq<Event>)
    ensures |r| == |bindings|
    decreases |bindings|
  {
    if bindings == [] then []
    else
      var last := |bindings| - 1;
      ParamEvents(bindings[..last], locs) + [ParameterInstantiated(PointParameter(bindings[last].0, bindings[last].1, true, locs))]
  }

  /** The value of the last binding of `k`, if there is one. */
  function Lookup(bindings: seq<Binding>, k: string): Option<real>
    decreases |bindings|
  {
    if bindings == [] then None
    else
      var last := |bindings| - 1;
      if bindings[last].0 == k then Some(bindings[last].1) else Lookup(bindings[..last], k)
  }

  predicate DistinctKeys(bindings: seq<Binding>) {
    forall i, j :: 0 <= i < j < |bindings| ==> bindings[i].0 != bindings[j].0
  }

  /** The value of a free parameter: `getattr(group, name)`. */
  function AttrValue(n: real, attrs: map<string, real>, name: string): real
    requires name == "n" || name in attrs
  {
    if name == "n" then n else attrs[name]
  }

  predicate FreeNamesSet(free: seq<string>, attrs: map<string, real>) {
    forall i :: 0 <= i < |free| ==> free[i] == "n" || free[i] in attrs
  }

  /** The free parameters paired with their current attribute values. */
  function FreeBindings(free: seq<string>, n: real, attrs: map<string, real>): seq<Binding>
    requires FreeNamesSet(free, attrs)
  {
    seq(|free|, i requires 0 <= i < |free| => (free[i], AttrValue(n, attrs, free[i])))
  }

  /** `_mk_parameter` keeps every existing key, adds every bound name, and every entry
      it makes carries its own name, is frozen and is bound to `locs`. */
  lemma {:induction false} BindKeys(table: map<string, PointParameter>, bindings: seq<Binding>, locs: seq<PointLocation>)
    ensures var r := Bind(table, bindings, locs);
      && (forall k :: k in table ==> k in r)
      && (forall i :: 0 <= i < |bindings| ==> bindings[i].0 in r)
      && (forall k :: k in r && k !in table ==> r[k].paramName == k && r[k].frozen && r[k].locations == locs)
    decreases |bindings|
  {
    if bindings != [] {
      var last := |bindings| - 1;
      BindKeys(table, bindings[..last], locs);
      assert forall i :: 0 <= i < last ==> bindings[..last][i] == bindings[i];
    }
  }

  /** The `i`-th parameter instantiation is that of a frozen object built from binding `i`. */
  lemma {:induction false} ParamEventsAt(bindings: seq<Binding>, locs: seq<PointLocation>)
    ensures forall i :: 0 <= i < |bindings| ==>
      ParamEvents(bindings, locs)[i] == ParameterInstantiated(PointParameter(bindings[i].0, bindings[i].1, true, locs))
    decreases |bindings|
  {
    if bindings != [] {
      var last := |bindings| - 1;
      ParamEventsAt(bindings[..last], locs);
      assert forall i :: 0 <= i < last ==> bindings[..last][i] == bindings[i];
    }
  }

  /** After the bindings, a name holds the parameter object made from its last binding;
      a name without a binding keeps what the table had. */
  lemma {:induction false} BindLookup(table: map<string, PointParameter>, bindings: seq<Binding>, locs: seq<PointLocation>, k: string)
    ensures k in Bind(table, bindings, locs) <==> k in table || Lookup(bindings, k).Some?
    ensures Lookup(bindings, k).Some? ==> Bind(table, bindings, locs)[k] == PointParameter(k, Lookup(bindings, k).value, true, locs)
    ensures Lookup(bindings, k).None? && k in table ==> Bind(table, bindings, locs)[k] == table[k]
    decreases |bindings|
  {
    if bindings != [] {
      BindLookup(table, bindings[..|bindings| - 1], locs, k);
    }
  }

  /** A name has a binding exactly when some binding carries it. */
  lemma {:induction false} LookupFinds(bindings: seq<Binding>, k: string)
    ensures Lookup(bindings, k).Some? <==> exists i :: 0 <= i < |bindings| && bindings[i].0 == k
    decreases |bindings|
  {
    if bindings != [] {
      var last := |bindings| - 1;
      LookupFinds(bindings[..last], k);
      if Lookup(bindings[..last], k).Some? {
        var i :| 0 <= i < last && bindings[..last][i].0 == k;
        assert bindings[i].0 == k;
      }
      if exists i :: 0 <= i < |bindings| && bindings[i].0 == k {
        var i :| 0 <= i < |bindings| && bindings[i].0 == k;
        if i < last {
          assert bindings[..last][i].0 == k;
        }
      }
    }
  }

  /** Later bindings win. */
  lemma {:induction false} LookupAppend(a: seq<Binding>, b: seq<Binding>, k: string)
    ensures Lookup(a + b, k) == if Lookup(b, k).Some? then Lookup(b, k) else Lookup(a, k)
    decreases |b|
  {
    if b == [] {
      assert a + b == a;
    } else {
      var last := |b| - 1;
      assert (a + b)[..|a + b| - 1] == a + b[..last];
      LookupAppend(a, b[..last], k);
    }
  }

  /** With distinct names, each binding is the one a lookup of its name finds. */
  lemma {:induction false} LookupDistinct(bindings: seq<Binding>, i: nat)
    requires DistinctKeys(bindings)
    requires i < |bindings|
    ensures Lookup(bindings, bindings[i].0) == Some(bindings[i].1)
    decreases |bindings|
  {
    var last := |bindings| - 1;
    if i < last {
      assert bindings[..last][i] == bindings[i];
      LookupDistinct(bindings[..last], i);
    }
  }

  /** A free name's binding is its attribute value, however often the name is listed. */
  lemma {:induction false} LookupFree(free: seq<string>, n: real, attrs: map<string, real>, k: string)
    requires FreeNamesSet(free, attrs)
    ensures Lookup(FreeBindings(free, n, attrs), k) == if k in free then Some(AttrValue(n, attrs, k)) else None
    decreases |free|
  {
    if free != [] {
      var last := |free| - 1;
      var fb := FreeBindings(free, n, attrs);
      assert fb[..last] == FreeBindings(free[..last], n, attrs);
      LookupFree(free[..last], n, attrs, k);
      assert free == free[..last] + [free[last]];
    }
  }

  /** What `param_obj` holds after an `instantiate` (point_process.py:61-67): its keys
      are the old ones plus the fixed and the free names; every entry made here is
      frozen and bound to all entry locations; a free name takes its attribute's
      current value, also when it clashes with a fixed name, because free parameters
      are made last; a fixed name not also free takes its keyword value. */
  lemma ParameterTable(table: map<string, PointParameter>, fixed: seq<Binding>, free: seq<string>,
                       n: real, attrs: map<string, real>, locs: seq<PointLocation>)
    requires FreeNamesSet(free, attrs)
    ensures var t := Bind(table, fixed + FreeBindings(free, n, attrs), locs);
      && t.Keys == table.Keys + (set i | 0 <= i < |fixed| :: fixed[i].0) + (set i | 0 <= i < |free| :: free[i])
      && (forall i :: 0 <= i < |free| ==> t[free[i]] == PointParameter(free[i], AttrValue(n, attrs, free[i]), true, locs))
      && (DistinctKeys(fixed) ==>
            forall i :: 0 <= i < |fixed| && fixed[i].0 !in free ==> t[fixed[i].0] == PointParameter(fixed[i].0, fixed[i].1, true, locs))
  {
    var fb := FreeBindings(free, n, attrs);
    var bs := fixed + fb;
    var t := Bind(table, bs, locs);
    var keys := table.Keys + (set i | 0 <= i < |fixed| :: fixed[i].0) + (set i | 0 <= i < |free| :: free[i]);
    forall k
      ensures k in t <==> k in keys
      ensures Lookup(bs, k).Some? ==> k in t && t[k] == PointParameter(k, Lookup(bs, k).value, true, locs)
    {
      BindLookup(table, bs, locs, k);
      LookupAppend(fixed, fb, k);
      LookupFree(free, n, attrs, k);
      LookupFinds(fixed, k);
      if k in free {
        var i :| 0 <= i < |free| && free[i] == k;
        assert k in (set i | 0 <= i < |free| :: free[i]);
      }
      if exists i :: 0 <= i < |fixed| && fixed[i].0 == k {
        var i :| 0 <= i < |fixed| && fixed[i].0 == k;
        assert k in (set i | 0 <= i < |fixed| :: fixed[i].0);
      }
    }
    assert t.Keys == keys;
    forall i | 0 <= i < |free|
      ensures t[free[i]] == PointParameter(free[i], AttrValue(n, attrs, free[i]), true, locs)
    {
      LookupAppend(fixed, fb, free[i]);
      LookupFree(free, n, attrs, free[i]);
    }
    if DistinctKeys(fixed) {
      forall i | 0 <= i < |fixed| && fixed[i].0 !in free
        ensures t[fixed[i].0] == PointParameter(fixed[i].0, fixed[i].1, true, locs)
      {
        LookupAppend(fixed, fb, fixed[i].0);
        LookupFree(free, n, attrs, fixed[i].0);
        LookupDistinct(fixed, i);
      }
    }
  }

  lemma {:induction false} BindSplit(table: map<string, PointParameter>, a: seq<Binding>, b: seq<Binding>, locs: seq<PointLocation>)
    ensures Bind(table, a + b, locs) == Bind(Bind(table, a, locs), b, locs)
    decreases |b|
  {
    if b == [] {
      assert a + b == a;
    } else {
      var last := |b| - 1;
      assert (a + b)[..|a + b| - 1] == a + b[..last];
      BindSplit(table, a, b[..last], locs);
    }
  }

  lemma {:induction false} ParamEventsSplit(a: seq<Binding>, b: seq<Binding>, locs: seq<PointLocation>)
    ensures ParamEvents(a + b, locs) == ParamEvents(a, locs) + ParamEvents(b, locs)
    decreases |b|
  {
    if b == [] {
      assert a + b == a;
    } else {
      var last := |b| - 1;
      assert (a + b)[..|a + b| - 1] == a + b[..last];
      ParamEventsSplit(a, b[..last], locs);
    }
  }

  /** `_mk_parameter` instantiates parameter objects and nothing else. */
  lemma {:induction false} ParamEventsOnlyParameters(bindings: seq<Binding>, locs: seq<PointLocation>)
    ensures forall e :: e in ParamEvents(bindings, locs) ==> e.ParameterInstantiated?
    decreases |bindings|
  {
    if bindings != [] {
      ParamEventsOnlyParameters(bindings[..|bindings| - 1], locs);
    }
  }

  /** Everything one group `instantiate` (point_process.py:50-67) records: the new
      entries' mechanisms, the source's wiring, then the parameter objects. */
  function RebuildEvents(entries: seq<NrnPointProcess>, bindings: seq<Binding>,
                         synapsesOf: PointLocation -> seq<Synapse>): (r: seq<Event>)
  {
    InstantiatedEvents(entries)
      + SpikeTrain.InstantiateEvents(Locations(entries), synapsesOf)
      + ParamEvents(bindings, Locations(entries))
  }

  /** A group `instantiate` first instantiates entry `i`'s mechanism at position `i`,
      then clears the source's netcons and resets its generator, and ends with one
      parameter instantiation per binding; in total it records one call per entry, two
      for the source, one per location and per synapse, and one per binding. */
  lemma RebuildEventsShape(entries: seq<NrnPointProcess>, bindings: seq<Binding>,
                           synapsesOf: PointLocation -> seq<Synapse>)
    ensures var r := RebuildEvents(entries, bindings, synapsesOf);
      && |r| == 2 * |entries| + 2 + |SpikeTrain.AllSynapses(Locations(entries), synapsesOf)| + |bindings|
      && (forall i :: 0 <= i < |entries| ==> r[i] == MechanismInstantiated(entries[i].location))
      && r[|entries|] == NetconsCleared && r[|entries| + 1] == GeneratorReset
      && (forall i :: 0 <= i < |bindings| ==>
            r[|r| - |bindings| + i] == ParameterInstantiated(PointParameter(bindings[i].0, bindings[i].1, true, Locations(entries))))
  {
    var locs := Locations(entries);
    var a := InstantiatedEvents(entries);
    var b := SpikeTrain.InstantiateEvents(locs, synapsesOf);
    var c := ParamEvents(bindings, locs);
    var r := a + b + c;
    assert RebuildEvents(entries, bindings, synapsesOf) == r;
    SpikeTrain.InstantiateEventsLength(locs, synapsesOf);
    assert |a| == |entries| && |c| == |bindings|;
    assert r[|a|] == b[0] == NetconsCleared && r[|a| + 1] == b[1] == GeneratorReset;
    forall i | 0 <= i < |entries|
      ensures r[i] == MechanismInstantiated(entries[i].location)
    {
      InstantiatedEventsAt(entries);
      assert r[i] == a[i];
    }
    forall i | 0 <= i < |bindings|
      ensures r[|r| - |bindings| + i] == ParameterInstantiated(PointParameter(bindings[i].0, bindings[i].1, true, locs))
    {
      ParamEventsAt(bindings, locs);
      assert |r| - |bindings| + i == |a| + |b| + i;
      assert r[|a| + |b| + i] == c[i];
    }
  }

  /** A group `instantiate` destroys no mechanism, and instantiates exactly the
      mechanisms of its new entries. */
  lemma RebuildDestroysNothing(entries: seq<NrnPointProcess>, bindings: seq<Binding>,
                               synapsesOf: PointLocation -> seq<Synapse>, l: PointLocation)
    ensures MechanismDestroyed(l) !in RebuildEvents(entries, bindings, synapsesOf)
    ensures MechanismInstantiated(l) in RebuildEvents(entries, bindings, synapsesOf) <==> l in Locations(entries)
  {
    var ev := SpikeTrain.InstantiateEvents(Locations(entries), synapsesOf);
    InstantiatedEventsFor(entries, l);
    SpikeTrain.InstantiateOrder(Locations(entries), synapsesOf);
    ParamEventsOnlyParameters(bindings, Locations(entries));
    assert MechanismDestroyed(l) !in ev && MechanismInstantiated(l) !in ev by {
      forall i | 0 <= i < |ev|
        ensures ev[i] != MechanismDestroyed(l) && ev[i] != MechanismInstantiated(l)
      {
        if i >= 2 {
          assert ev[i].LocationInstantiated? || ev[i].DestinationAdded?;
        }
      }
    }
  }

  // ---- The group ----

  /** `PointProcessGroup` (point_process.py:21-77).  `attrs` holds the attributes
      other than `n` that are set on the group: the free parameters and whatever a
      bound parameter writes. */
  class PointProcessGroup {
    const suffix: string
    const locations: seq<SectionLocation>
    const fixedParamValue: seq<Binding>
    const freeParamName: seq<string>
    const source: SpikeTrain.NrnSpikeTrainGenerator
    var attrs: map<string, real>
    var paramObj: map<string, PointParameter>
    var n: real
    var pprocess: seq<NrnPointProcess>

    /** Every free parameter has an attribute to read. */
    predicate Valid()
      reads this
    {
      FreeNamesSet(freeParamName, attrs)
    }

    /** `getattr(self, name)` for `n` and the names in `attrs`. */
    function Attr(name: string): real
      reads this
      requires name == "n" || name in attrs
    {
      AttrValue(n, attrs, name)
    }

    /** `callable(getattr(self, 'instantiate', None))`: the group's own method, unless an
        attribute of that name, a free parameter or a bound parameter's write, shadows it. */
    predicate InstantiateCallable()
      reads this
    {
      "instantiate" !in attrs
    }

    /** The fixed parameters, then the free ones with their current values. */
    function Bindings(): seq<Binding>
      reads this
      requires Valid()
    {
      fixedParamValue + FreeBindings(freeParamName, n, attrs)
    }

    /** Wraps a single location into a list, creates every free parameter as an
        attribute worth 0.0, and starts with no entries and no parameter objects. */
    constructor (suffix: string, locations: LocationsArg, source: SpikeTrain.NrnSpikeTrainGenerator,
                 freeParamName: seq<string>, fixedParamValue: seq<Binding>)
      ensures this.locations == (match locations case Single(l) => [l] case List(ls) => ls)
      ensures this.suffix == suffix && this.source == source
      ensures this.freeParamName == freeParamName && this.fixedParamValue == fixedParamValue
      ensures Valid()
      ensures forall i :: 0 <= i < |freeParamName| ==> Attr(freeParamName[i]) == 0.0
      ensures attrs.Keys == set i | 0 <= i < |freeParamName| && freeParamName[i] != "n" :: freeParamName[i]
      ensures n == 0.0 && pprocess == [] && paramObj == map[]
    {
      this.locations := match locations case Single(l) => [l] case List(ls) => ls;
      this.suffix := suffix;
      this.fixedParamValue := fixedParamValue;
      this.freeParamName := freeParamName;
      var a: map<string, real> := map[];
      var i := 0;
      while i < |freeParamName|
        invariant 0 <= i <= |freeParamName|
        invariant a.Keys == set j | 0 <= j < i && freeParamName[j] != "n" :: freeParamName[j]
        invariant forall j :: 0 <= j < i && freeParamName[j] != "n" ==> a[freeParamName[j]] == 0.0
        invariant forall k :: k in a ==> a[k] == 0.0
      {
        if freeParamName[i] != "n" {
          a := a[freeParamName[i] := 0.0];
        }
        i := i + 1;
      }
      attrs := a;
      paramObj := map[];
      n := 0.0;
      pprocess := [];
      this.source := source;
    }

    /** `setattr(group, name, value)` as a bound parameter does it. */
    method SetAttr(name: string, value: real)
      requires Valid()
      modifies this`n, this`attrs
      ensures Valid()
      ensures name == "n" ==> n == value && attrs == old(attrs)
      ensures name != "n" ==> n == old(n) && attrs == old(attrs)[name := value]
    {
      if name == "n" {
        n := value;
      } else {
        attrs := attrs[name := value];
      }
    }

    /** `_mk_parameter` (point_process.py:45-47): creates and instantiates one parameter
        object and stores it under `name`, replacing any earlier one. */
    method MkParameter(name: string, value: real, locs: seq<PointLocation>, sim: Simulator, frozen: bool)
      modifies this`paramObj, sim
      ensures paramObj == old(paramObj)[name := PointParameter(name, value, frozen, locs)]
      ensures sim.events == old(sim.events) + [ParameterInstantiated(PointParameter(name, value, frozen, locs))]
    {
      paramObj := paramObj[name := PointParameter(name, value, frozen, locs)];
      sim.events := sim.events + [ParameterInstantiated(PointParameter(name, value, frozen, locs))];
    }

    /** The loop at point_process.py:51-55: `count` new point processes on the group's
        locations, each instantiated right after it is built. */
    method BuildEntries(count: nat, sim: Simulator) returns (entries: seq<NrnPointProcess>)
      modifies sim
      ensures |entries| == count
      ensures forall i :: 0 <= i < count ==>
        && fresh(entries[i]) && fresh(entries[i].location) && entries[i].status == Live
        && entries[i].suffix == suffix && entries[i].sections == locations
      ensures forall i, j :: 0 <= i < j < count ==> entries[i] != entries[j]
      ensures sim.events == old(sim.events) + InstantiatedEvents(entries)
    {
      entries := [];
      var i := 0;
      while i < count
        invariant 0 <= i <= count && |entries| == i
        invariant forall j :: 0 <= j < i ==>
          && fresh(entries[j]) && fresh(entries[j].location) && entries[j].status == Live
          && entries[j].suffix == suffix && entries[j].sections == locations
        invariant forall j, k :: 0 <= j < k < i ==> entries[j] != entries[k]
        invariant sim.events == old(sim.events) + InstantiatedEvents(entries)
      {
        var pp := new NrnPointProcess(suffix, locations);
        pp.Instantiate(sim);
        assert (entries + [pp])[..i] == entries;
        entries := entries + [pp];
        i := i + 1;
      }
    }

    /** One of the two loops at point_process.py:61-67: `_mk_parameter` for each binding in turn. */
    method MkParameters(bindings: seq<Binding>, locs: seq<PointLocation>, sim: Simulator)
      modifies this`paramObj, sim
      ensures paramObj == Bind(old(paramObj), bindings, locs)
      ensures sim.events == old(sim.events) + ParamEvents(bindings, locs)
    {
      var k := 0;
      while k < |bindings|
        invariant 0 <= k <= |bindings|
        invariant paramObj == Bind(old(paramObj), bindings[..k], locs)
        invariant sim.events == old(sim.events) + ParamEvents(bindings[..k], locs)
      {
        assert bindings[..k + 1][..k] == bindings[..k];
        MkParameter(bindings[k].0, bindings[k].1, locs, sim, true);
        k := k + 1;
      }
      assert bindings[..k] == bindings;
    }

    /** The two loops at point_process.py:61-67: the fixed parameters first, then the
        free ones with their current values. */
    method MkAllParameters(locs: seq<PointLocation>, sim: Simulator)
      requires Valid()
      modifies this`paramObj, sim
      ensures paramObj == Bind(old(paramObj), Bindings(), locs)
      ensures sim.events == old(sim.events) + ParamEvents(Bindings(), locs)
    {
      var free := FreeBindings(freeParamName, n, attrs);
      MkParameters(fixedParamValue, locs, sim);
      MkParameters(free, locs, sim);
      BindSplit(old(paramObj), fixedParamValue, free, locs);
      ParamEventsSplit(fixedParamValue, free, locs);
    }

    /** point_process.py:51-59: a fresh batch of `EntryCount(n)` instantiated entries
        replaces the old one, and the source is rewired to their locations and
        instantiated; returns those locations. */
    method RebuildEntries(sim: Simulator, synapsesOf: PointLocation -> seq<Synapse>) returns (locs: seq<PointLocation>)
      modifies this`pprocess, sim, source, source.isiGen
      ensures |pprocess| == EntryCount(n) && locs == Locations(pprocess)
      ensures forall i :: 0 <= i < |pprocess| ==>
        && fresh(pprocess[i]) && fresh(pprocess[i].location) && pprocess[i].status == Live
        && pprocess[i].suffix == suffix && pprocess[i].sections == locations
      ensures forall i, j :: 0 <= i < j < |pprocess| ==> pprocess[i] != pprocess[j]
      ensures forall p :: p in old(pprocess) ==> p.status == old(p.status)
      ensures source.locations == locs
      ensures source.totalDuration == old(source.totalDuration)
      ensures sim.events == old(sim.events) + InstantiatedEvents(pprocess) + SpikeTrain.InstantiateEvents(locs, synapsesOf)
    {
      var entries := BuildEntries(EntryCount(n), sim);
      pprocess := entries;
      locs := Locations(entries);
      source.locations := locs;
      source.Instantiate(sim, synapsesOf);
    }

    /** Builds and instantiates `EntryCount(n)` new point processes, wires the source to
        their locations and instantiates it, then makes the fixed and the free
        parameter objects.  The previous entries are dropped without being destroyed. */
    method Instantiate(sim: Simulator, synapsesOf: PointLocation -> seq<Synapse>)
      requires Valid()
      modifies this, sim, source, source.isiGen
      ensures Valid() && n == old(n) && attrs == old(attrs)
      ensures |pprocess| == EntryCount(n)
      ensures forall i :: 0 <= i < |pprocess| ==>
        && fresh(pprocess[i]) && fresh(pprocess[i].location) && pprocess[i].status == Live
        && pprocess[i].suffix == suffix && pprocess[i].sections == locations
      ensures forall i, j :: 0 <= i < j < |pprocess| ==> pprocess[i] != pprocess[j]
      ensures forall p :: p in old(pprocess) ==> p.status == old(p.status)
      ensures source.locations == Locations(pprocess)
      ensures source.totalDuration == old(source.totalDuration)
      ensures paramObj == Bind(old(paramObj), Bindings(), Locations(pprocess))
      ensures sim.events == old(sim.events) + RebuildEvents(pprocess, Bindings(), synapsesOf)
    {
      var locs := RebuildEntries(sim, synapsesOf);
      MkAllParameters(locs, sim);
    }

    /** Destroys every entry, destroys the source once, and leaves no entries, no
        parameter objects and `n == 0`; on an empty group only the source is destroyed. */
    method Destroy(sim: Simulator)
      requires Valid()
      modifies this, sim, source, set p | p in pprocess
      ensures Valid() && attrs == old(attrs)
      ensures n == 0.0 && pprocess == [] && paramObj == map[]
      ensures forall p :: p in old(pprocess) ==> p.status == Released
      ensures sim.events == old(sim.events) + DestroyedEvents(old(pprocess)) + [NetconsCleared]
      ensures source.locations == old(source.locations) && source.netcons == map[]
      ensures source.totalDuration == old(source.totalDuration)
    {
      var i := 0;
      while i < |pprocess|
        invariant 0 <= i <= |pprocess|
        invariant pprocess == old(pprocess) && attrs == old(attrs)
        invariant source.locations == old(source.locations) && source.totalDuration == old(source.totalDuration)
        invariant forall j :: 0 <= j < i ==> pprocess[j].status == Released
        invariant sim.events == old(sim.events) + DestroyedEvents(pprocess[..i])
      {
        assert pprocess[..i + 1][..i] == pprocess[..i];
        pprocess[i].Destroy(sim);
        i := i + 1;
      }
      assert pprocess[..i] == pprocess;
      source.Destroy(sim);
      n := 0.0;
      pprocess := [];
      paramObj := map[];
    }
  }
}
