/** The spike-train stimulus `NrnSpikeTrainGenerator` (spiketrain.py).

    Its base class, which is not part of this model, supplies `reset()` and
    `add_destination(syn)`; they appear here only as recorded calls. */
module SpikeTrain {
  import opened Neuron
  import ExpSyn

  /** The `add_destination` calls for the synapses of one location, in order. */
  function Destinations(synapses: seq<Synapse>): (r: seq<Event>)
    ensures |r| == |synapses|
    decreases |synapses|
  {
    if synapses == [] then []
    else
      var last := |synapses| - 1;
      Destinations(synapses[..last]) + [DestinationAdded(synapses[last])]
  }

  /** The calls that wire `locations`: each location is instantiated and then every
      synapse it yields is added as a destination (spiketrain.py:21-23). */
  function Wiring(locations: seq<PointLocation>, synapsesOf: PointLocation -> seq<Synapse>): (r: seq<Event>)
    decreases |locations|
  {
    if locations == [] then []
    else
      var last := |locations| - 1;
      Wiring(locations[..last], synapsesOf) + [LocationInstantiated(locations[last])] + Destinations(synapsesOf(locations[last]))
  }

  /** Everything one `instantiate` does (spiketrain.py:15-23). */
  function InstantiateEvents(locations: seq<PointLocation>, synapsesOf: PointLocation -> seq<Synapse>): (r: seq<Event>)
  {
    [NetconsCleared, GeneratorReset] + Wiring(locations, synapsesOf)
  }

  /** All synapses the locations yield, location by location. */
  function AllSynapses(locations: seq<PointLocation>, synapsesOf: PointLocation -> seq<Synapse>): seq<Synapse>
    decreases |locations|
  {
    if locations == [] then []
    else
      var last := |locations| - 1;
      AllSynapses(locations[..last], synapsesOf) + synapsesOf(locations[last])
  }

  /** The synapses of the `add_destination` calls in a trace, in order. */
  function Added(events: seq<Event>): seq<Synapse>
    decreases |events|
  {
    if events == [] then []
    else
      var last := |events| - 1;
      Added(events[..last]) + (if events[last].DestinationAdded? then [events[last].synapse] else [])
  }

  /** The locations instantiated in a trace, in order. */
  function Visited(events: seq<Event>): seq<PointLocation>
    decreases |events|
  {
    if events == [] then []
    else
      var last := |events| - 1;
      Visited(events[..last]) + (if events[last].LocationInstantiated? then [events[last].location] else [])
  }

  lemma {:induction false} AddedAppend(a: seq<Event>, b: seq<Event>)
    ensures Added(a + b) == Added(a) + Added(b)
    ensures Visited(a + b) == Visited(a) + Visited(b)
    decreases |b|
  {
    if b == [] {
      assert a + b == a;
    } else {
      var last := |b| - 1;
      assert (a + b)[..|a + b| - 1] == a + b[..last];
      AddedAppend(a, b[..last]);
    }
  }

  lemma {:induction false} DestinationsAdd(synapses: seq<Synapse>)
    ensures Added(Destinations(synapses)) == synapses
    ensures Visited(Destinations(synapses)) == []
    ensures forall e :: e in Destinations(synapses) ==> e.DestinationAdded?
    decreases |synapses|
  {
    if synapses != [] {
      var last := |synapses| - 1;
      DestinationsAdd(synapses[..last]);
      AddedAppend(Destinations(synapses[..last]), [DestinationAdded(synapses[last])]);
      assert synapses[..last] + [synapses[last]] == synapses;
    }
  }

  lemma WiringStep(locations: seq<PointLocation>, synapsesOf: PointLocation -> seq<Synapse>)
    requires locations != []
    ensures var last := |locations| - 1;
      Wiring(locations, synapsesOf)
        == Wiring(locations[..last], synapsesOf) + ([LocationInstantiated(locations[last])] + Destinations(synapsesOf(locations[last])))
  {
  }

  /** The wiring instantiates the locations in list order. */
  lemma {:induction false} WiringVisitsInOrder(locations: seq<PointLocation>, synapsesOf: PointLocation -> seq<Synapse>)
    ensures Visited(Wiring(locations, synapsesOf)) == locations
    decreases |locations|
  {
    if locations != [] {
      var last := |locations| - 1;
      var l := locations[last];
      var d := Destinations(synapsesOf(l));
      var head := Wiring(locations[..last], synapsesOf);
      var tail := [LocationInstantiated(l)] + d;
      WiringStep(locations, synapsesOf);
      WiringVisitsInOrder(locations[..last], synapsesOf);
      assert Visited(head) == locations[..last];
      DestinationsAdd(synapsesOf(l));
      assert Visited(d) == [];
      AddedAppend([LocationInstantiated(l)], d);
      assert Visited([LocationInstantiated(l)]) == [l] by {
        assert [LocationInstantiated(l)][..0] == [];
      }
      assert Visited(tail) == [l];
      AddedAppend(head, tail);
      assert Visited(head + tail) == locations[..last] + [l];
      assert locations[..last] + [l] == locations;
    }
  }

  /** The wiring adds one destination per synapse each location yields, location by
      location and in the order the location yields them. */
  lemma {:induction false} WiringAddsEverySynapse(locations: seq<PointLocation>, synapsesOf: PointLocation -> seq<Synapse>)
    ensures Added(Wiring(locations, synapsesOf)) == AllSynapses(locations, synapsesOf)
    decreases |locations|
  {
    if locations != [] {
      var last := |locations| - 1;
      var l := locations[last];
      var d := Destinations(synapsesOf(l));
      var head := Wiring(locations[..last], synapsesOf);
      var tail := [LocationInstantiated(l)] + d;
      WiringStep(locations, synapsesOf);
      WiringAddsEverySynapse(locations[..last], synapsesOf);
      assert Added(head) == AllSynapses(locations[..last], synapsesOf);
      DestinationsAdd(synapsesOf(l));
      assert Added(d) == synapsesOf(l);
      AddedAppend([LocationInstantiated(l)], d);
      assert Added([LocationInstantiated(l)]) == [] by {
        assert [LocationInstantiated(l)][..0] == [];
      }
      assert Added(tail) == synapsesOf(l);
      AddedAppend(head, tail);
      assert Added(head + tail) == Added(head) + synapsesOf(l);
    }
  }

  /** The wiring makes no call other than location instantiations and `add_destination`. */
  lemma {:induction false} WiringOnlyWires(locations: seq<PointLocation>, synapsesOf: PointLocation -> seq<Synapse>)
    ensures forall e :: e in Wiring(locations, synapsesOf) ==> e.LocationInstantiated? || e.DestinationAdded?
    decreases |locations|
  {
    if locations != [] {
      var last := |locations| - 1;
      WiringStep(locations, synapsesOf);
      WiringOnlyWires(locations[..last], synapsesOf);
      DestinationsAdd(synapsesOf(locations[last]));
    }
  }

  /** `instantiate` makes one call per location and one per synapse it yields, besides
      the clear and the reset. */
  lemma {:induction false} InstantiateEventsLength(locations: seq<PointLocation>, synapsesOf: PointLocation -> seq<Synapse>)
    ensures |Wiring(locations, synapsesOf)| == |locations| + |AllSynapses(locations, synapsesOf)|
    ensures |InstantiateEvents(locations, synapsesOf)| == 2 + |locations| + |AllSynapses(locations, synapsesOf)|
    decreases |locations|
  {
    if locations != [] {
      InstantiateEventsLength(locations[..|locations| - 1], synapsesOf);
    }
  }

  /** `instantiate` clears the netcons first, resets the generator second, and only then
      instantiates locations and adds destinations; neither the clear nor the reset
      happens again, every location is instantiated once and in order, and every
      synapse they yield is added. */
  lemma InstantiateOrder(locations: seq<PointLocation>, synapsesOf: PointLocation -> seq<Synapse>)
    ensures var ev := InstantiateEvents(locations, synapsesOf);
      && ev[0] == NetconsCleared && ev[1] == GeneratorReset
      && (forall i :: 2 <= i < |ev| ==> ev[i].LocationInstantiated? || ev[i].DestinationAdded?)
      && Added(ev) == AllSynapses(locations, synapsesOf)
      && Visited(ev) == locations
  {
    var w := Wiring(locations, synapsesOf);
    WiringAddsEverySynapse(locations, synapsesOf);
    WiringVisitsInOrder(locations, synapsesOf);
    WiringOnlyWires(locations, synapsesOf);
    AddedAppend([NetconsCleared, GeneratorReset], w);
    assert Added([NetconsCleared, GeneratorReset]) == [] && Visited([NetconsCleared, GeneratorReset]) == [] by {
      assert [NetconsCleared, GeneratorReset][..1] == [NetconsCleared];
    }
    var ev := InstantiateEvents(locations, synapsesOf);
    forall i | 2 <= i < |ev|
      ensures ev[i].LocationInstantiated? || ev[i].DestinationAdded?
    {
      assert ev[i] == w[i - 2];
      assert w[i - 2] in w;
    }
  }

  /** `NrnSpikeTrainGenerator` (spiketrain.py:7-27). */
  class NrnSpikeTrainGenerator {
    const isiGen: ExpSyn.Isi
    /** The netcons, keyed by spike time.  The inherited `add_destination` creates
        them, so after `instantiate` nothing is promised about this dictionary. */
    var netcons: map<real, seq<Synapse>>
    var locations: seq<PointLocation>
    var totalDuration: real

    constructor (isiGen: ExpSyn.Isi, totalDuration: real, locations: seq<PointLocation>)
      ensures this.isiGen == isiGen && this.totalDuration == totalDuration && this.locations == locations
      ensures netcons == map[]
    {
      this.isiGen := isiGen;
      netcons := map[];
      this.locations := locations;
      this.totalDuration := totalDuration;
    }

    /** The inherited `reset()` ("reset generation"), kept abstract: it may change the
        interval generator, and nothing is promised about the state it leaves it in. */
    method Reset(sim: Simulator)
      modifies sim, isiGen
      ensures sim.events == old(sim.events) + [GeneratorReset]
    {
      sim.events := sim.events + [GeneratorReset];
    }

    /** The inherited `add_destination(syn)`, kept abstract: it may create netcons. */
    method AddDestination(sim: Simulator, synapse: Synapse)
      modifies this`netcons, sim
      ensures sim.events == old(sim.events) + [DestinationAdded(synapse)]
    {
      sim.events := sim.events + [DestinationAdded(synapse)];
    }

    /** `add_destination` for each synapse of one location, in order (spiketrain.py:22-23). */
    method AddDestinations(sim: Simulator, synapses: seq<Synapse>)
      modifies this`netcons, sim
      ensures sim.events == old(sim.events) + Destinations(synapses)
    {
      var j := 0;
      while j < |synapses|
        invariant 0 <= j <= |synapses|
        invariant sim.events == old(sim.events) + Destinations(synapses[..j])
      {
        assert synapses[..j + 1][..j] == synapses[..j];
        AddDestination(sim, synapses[j]);
        j := j + 1;
      }
      assert synapses[..j] == synapses;
    }

    /** Clears the netcons, resets the generator, then for each location in order
        instantiates it and adds every synapse it yields as a destination; `synapsesOf`
        stands for what each location's `instantiate` returns. */
    method Instantiate(sim: Simulator, synapsesOf: PointLocation -> seq<Synapse>)
      modifies this, sim, isiGen
      ensures locations == old(locations) && totalDuration == old(totalDuration)
      ensures sim.events == old(sim.events) + InstantiateEvents(locations, synapsesOf)
    {
      netcons := map[];
      sim.events := sim.events + [NetconsCleared];
      Reset(sim);
      ghost var start := sim.events;
      var i := 0;
      while i < |locations|
        invariant 0 <= i <= |locations|
        invariant locations == old(locations) && totalDuration == old(totalDuration)
        invariant sim.events == start + Wiring(locations[..i], synapsesOf)
      {
        var location := locations[i];
        ghost var wired := Wiring(locations[..i], synapsesOf);
        assert locations[..i + 1][..i] == locations[..i];
        assert Wiring(locations[..i + 1], synapsesOf)
          == wired + [LocationInstantiated(location)] + Destinations(synapsesOf(location));
        sim.events := sim.events + [LocationInstantiated(location)];
        AddDestinations(sim, synapsesOf(location));
        assert sim.events == start + wired + [LocationInstantiated(location)] + Destinations(synapsesOf(location));
        i := i + 1;
      }
      assert locations[..i] == locations;
    }

    /** Clears the netcons and leaves the generator, the locations and the duration
        as they were; a second call leaves the same state. */
    method Destroy(sim: Simulator)
      modifies this, sim
      ensures netcons == map[] && locations == old(locations) && totalDuration == old(totalDuration)
      ensures sim.events == old(sim.events) + [NetconsCleared]
    {
      netcons := map[];
      sim.events := sim.events + [NetconsCleared];
    }
  }
}
