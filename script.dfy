/** The wiring of the synapse-fitting script that matters for the instantiate/destroy
    bookkeeping (ExpSyn.py:91-103): two parameters, `syn_circ_nsyn` writing `n` and
    `syn_circ_gmax` writing `gmax`, both bound to the same point-process group.

    Each parameter's `instantiate` writes its attribute on the group and then calls
    the group's `instantiate` (parameters.py:62-66), so instantiating both rebuilds
    the group twice, and the entries of the first rebuild are never destroyed. */
module Script {
  import opened Common
  import opened Neuron
  import Parameters
  import PointProcess

  /** `PyObjectParameter.instantiate` for a parameter whose only target is `group`: no
      value is refused up front; otherwise the attribute is written and then the
      group's own `instantiate`, which raises nothing, is called if it is still callable
      (parameters.py:63-64): not when the written attribute is named `instantiate`, and
      not when an attribute of that name already shadows the method. */
  method InstantiateOnGroup(group: PointProcess.PointProcessGroup, name: string, paramName: string,
                            value: Option<real>, sim: Simulator, synapsesOf: PointLocation -> seq<Synapse>)
    returns (failure: Option<Parameters.Failure>)
    requires group.Valid()
    modifies group, sim, group.source, group.source.isiGen
    ensures group.Valid()
    ensures value.None? ==> failure == Some(Parameters.MissingValue(name))
    ensures value.None? ==>
      && unchanged(group) && unchanged(group.source) && unchanged(group.source.isiGen)
      && sim.events == old(sim.events)
    ensures value.Some? ==> failure.None?
    ensures value.Some? && paramName == "n" ==> group.n == value.value && group.attrs == old(group.attrs)
    ensures value.Some? && paramName != "n" ==> group.n == old(group.n) && group.attrs == old(group.attrs)[paramName := value.value]
    ensures value.Some? ==> (group.InstantiateCallable() <==> paramName != "instantiate" && old(group.InstantiateCallable()))
    ensures value.Some? && !group.InstantiateCallable() ==>
      && group.pprocess == old(group.pprocess) && group.paramObj == old(group.paramObj)
      && unchanged(group.source) && unchanged(group.source.isiGen) && sim.events == old(sim.events)
    ensures value.Some? && group.InstantiateCallable() ==>
      && |group.pprocess| == PointProcess.EntryCount(group.n)
      && (forall i :: 0 <= i < |group.pprocess| ==>
            && fresh(group.pprocess[i]) && fresh(group.pprocess[i].location)
            && group.pprocess[i].status == PointProcess.Live
            && group.pprocess[i].suffix == group.suffix && group.pprocess[i].sections == group.locations)
      && (forall i, j :: 0 <= i < j < |group.pprocess| ==> group.pprocess[i] != group.pprocess[j])
      && group.source.locations == PointProcess.Locations(group.pprocess)
      && group.source.totalDuration == old(group.source.totalDuration)
      && group.paramObj == PointProcess.Bind(old(group.paramObj), group.Bindings(), PointProcess.Locations(group.pprocess))
      && sim.events == old(sim.events) + PointProcess.RebuildEvents(group.pprocess, group.Bindings(), synapsesOf)
    ensures forall p :: p in old(group.pprocess) ==> p.status == old(p.status)
  {
    if value.None? {
      return Some(Parameters.MissingValue(name));
    }
    group.SetAttr(paramName, value.value);
    if group.InstantiateCallable() {
      group.Instantiate(sim, synapsesOf);
    }
    return None;
  }

  /** Instantiating `syn_circ_nsyn` and then `syn_circ_gmax` leaves the group with the
      entries of the second rebuild, sized by the `n` the first one wrote, and the
      gain the second one wrote; the entries the first rebuild made are still live
      and no longer in the group, so they can never be destroyed through it.  The
      script's group has `gmax` as its only free name (ExpSyn.py:91), so nothing
      shadows its `instantiate`. */
  method InstantiateSynapseParameters(group: PointProcess.PointProcessGroup, nsyn: real, gmax: real,
                                      sim: Simulator, synapsesOf: PointLocation -> seq<Synapse>)
    returns (ghost leaked: seq<PointProcess.NrnPointProcess>, ghost firstBindings: seq<PointProcess.Binding>)
    requires group.Valid() && group.InstantiateCallable()
    modifies group, sim, group.source, group.source.isiGen
    ensures group.Valid()
    ensures group.n == nsyn && "gmax" in group.attrs && group.attrs["gmax"] == gmax
    ensures |group.pprocess| == PointProcess.EntryCount(nsyn)
    ensures |leaked| == PointProcess.EntryCount(nsyn)
    ensures forall p :: p in leaked ==> fresh(p) && p.status == PointProcess.Live && p !in group.pprocess
    ensures forall p :: p in group.pprocess ==> fresh(p) && p.status == PointProcess.Live
    ensures forall p :: p in leaked ==> p.location !in PointProcess.Locations(group.pprocess)
    ensures forall p :: p in old(group.pprocess) ==> p.status == old(p.status)
    ensures sim.events == old(sim.events)
      + PointProcess.RebuildEvents(leaked, firstBindings, synapsesOf)
      + PointProcess.RebuildEvents(group.pprocess, group.Bindings(), synapsesOf)
  {
    var f1 := InstantiateOnGroup(group, "syn_circ_nsyn", "n", Some(nsyn), sim, synapsesOf);
    leaked := group.pprocess;
    firstBindings := group.Bindings();
    var f2 := InstantiateOnGroup(group, "syn_circ_gmax", "gmax", Some(gmax), sim, synapsesOf);
    assert f1.None? && f2.None?;
  }

  /** The trace of two rebuilds followed by the group's `destroy` (point_process.py:70-77):
      a location of the first batch that is not in the second was instantiated and is
      never destroyed, because `destroy` only reaches the entries the group still holds. */
  lemma FirstBatchLeaks(prefix: seq<Event>, first: seq<PointProcess.NrnPointProcess>, firstBindings: seq<PointProcess.Binding>,
                        second: seq<PointProcess.NrnPointProcess>, secondBindings: seq<PointProcess.Binding>,
                        synapsesOf: PointLocation -> seq<Synapse>, l: PointLocation)
    requires l in PointProcess.Locations(first) && l !in PointProcess.Locations(second)
    requires MechanismDestroyed(l) !in prefix
    ensures var trace := prefix
      + PointProcess.RebuildEvents(first, firstBindings, synapsesOf)
      + PointProcess.RebuildEvents(second, secondBindings, synapsesOf)
      + PointProcess.DestroyedEvents(second) + [NetconsCleared];
      MechanismInstantiated(l) in trace && MechanismDestroyed(l) !in trace
  {
    PointProcess.RebuildDestroysNothing(first, firstBindings, synapsesOf, l);
    PointProcess.RebuildDestroysNothing(second, secondBindings, synapsesOf, l);
    PointProcess.DestroyedEventsFor(second, l);
  }

  /** Both synapse parameters instantiated, then the group destroyed: every entry of the
      first rebuild is still live, its mechanism was instantiated during the run and
      was never destroyed. */
  method InstantiateThenDestroy(group: PointProcess.PointProcessGroup, nsyn: real, gmax: real,
                                sim: Simulator, synapsesOf: PointLocation -> seq<Synapse>)
    returns (ghost leaked: seq<PointProcess.NrnPointProcess>)
    requires group.Valid() && group.InstantiateCallable()
    modifies group, sim, group.source, group.source.isiGen, group.pprocess
    ensures group.pprocess == [] && group.n == 0.0
    ensures |leaked| == PointProcess.EntryCount(nsyn)
    ensures old(sim.events) <= sim.events
    ensures forall p :: p in leaked ==>
      && fresh(p) && p.status == PointProcess.Live
      && MechanismInstantiated(p.location) in sim.events[|old(sim.events)|..]
      && MechanismDestroyed(p.location) !in sim.events[|old(sim.events)|..]
  {
    ghost var start := sim.events;
    ghost var firstBindings;
    leaked, firstBindings := InstantiateSynapseParameters(group, nsyn, gmax, sim, synapsesOf);
    ghost var second := group.pprocess;
    ghost var secondBindings := group.Bindings();
    group.Destroy(sim);
    ghost var run := sim.events[|start|..];
    assert run == PointProcess.RebuildEvents(leaked, firstBindings, synapsesOf)
      + PointProcess.RebuildEvents(second, secondBindings, synapsesOf)
      + PointProcess.DestroyedEvents(second) + [NetconsCleared];
    forall p | p in leaked
      ensures MechanismInstantiated(p.location) in run && MechanismDestroyed(p.location) !in run
    {
      var i :| 0 <= i < |leaked| && leaked[i] == p;
      assert PointProcess.Locations(leaked)[i] == p.location;
      FirstBatchLeaks([], leaked, firstBindings, second, secondBindings, synapsesOf, p.location);
      assert [] + run == run;
    }
  }
}
