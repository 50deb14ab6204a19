# Instantiate/destroy bookkeeping of the synapse-fitting circuit

This project models the part of the BluePyOpt synapse-fitting example that lets the
number of synapses act as an optimizer parameter. It covers four pieces:

- `ISI` (module `ExpSyn`): the inter-spike-interval generator. It hands out the gaps
  20.0, 5.0, 5.0, 5.0, 5.0 and then `None` until it is reset. It is a class with the
  source's fields `n` and `first`. Its methods are tied to the pure state machine
  `Fresh`/`Emit`/`Next`, and the lemmas derive the whole output schedule from that
  state machine.
- `PyParameter` and `PyObjectParameter` (module `Parameters`): bind one value to a
  list of Python objects. An object is a record: a map of number-valued attributes plus
  how it answers `instantiate` and `destroy` (no such method, returns, raises
  `TypeError`, or raises something else). The objects live in a `Heap`, and a trace
  records each `setattr`, `instantiate` and `destroy` call. The methods loop over
  `py_objects` as the source does. They are proved against the fold functions
  `InstantiateSpec` and `DestroyRun`, and lemmas state ordering, framing, success and
  first-failure behaviour.
- `NrnPointProcess` and `PointProcessGroup` (module `PointProcess`): the resizable
  group. `instantiate` builds `int(round(n))` fresh point processes, using Python's
  half-to-even rounding and giving an empty list for a negative count. It then points
  the stimulus source at their locations, instantiates the source, and creates one
  parameter object per fixed name and per free name. `destroy` destroys every entry,
  destroys the source once, and resets `n`, `pprocess` and `param_obj`.
- `NrnSpikeTrainGenerator` (module `SpikeTrain`): the stimulus. `instantiate` clears
  its netcons and resets its generator. It then instantiates every location and adds
  one destination per synapse that location yields. `destroy` clears the netcons.

NEURON and bluepyopt handles are opaque (module `Neuron`). The point processes, the
group and the spike generator take a `Simulator` object where the source passes `sim`.
It records their outward calls in order: mechanism instantiation and destruction,
generator reset, location instantiation, `add_destination` and parameter-object
instantiation. The generator's clearing of its own `_netcons` dictionary is not an
outward call, but it is recorded as an event as well, so that its place in that order
can be stated. The synapses a location yields when instantiated are a
parameter `synapsesOf`. `PyObjectParameter` instead works on a `Heap` of object records
with its own call trace; the `sim` it forwards to each object's methods
(parameters.py:66, 78) is not modelled.

Module `Script` composes the pieces as the fitting script wires them
(ExpSyn.py:91-103). `syn_circ_nsyn` (writing `n`) and `syn_circ_gmax` (writing `gmax`)
both target the same group, so instantiating them rebuilds the group twice. The group's
`instantiate` overwrites `pprocess` without destroying the old entries
(point_process.py:51). The entries of the first rebuild therefore stay instantiated,
are no longer reachable, and survive the group's `destroy`.
`Script.InstantiateThenDestroy` and the lemma `Script.FirstBatchLeaks` state this leak
exactly.

Four behaviours of the code differ from what a reader might expect:

- The group's `destroy` clears `param_obj` but does not destroy the parameter objects.
- The spike source's `destroy` clears only its netcons; nothing else is released.
- `PyObjectParameter.destroy` stops at the first failing object. It is not a
  best-effort cleanup.
- A point process's `destroy` does not clear its handles.

## Model

| member | source | states |
|---|---|---|
| ExpSyn.Emit | ExpSyn.py:31-37 | a draw returns `None` exactly when five draws have already been made, and a gap otherwise; the gap is 20.0 exactly when `first` is set |
| ExpSyn.Next | ExpSyn.py:31-36 | a draw always increments `n`; `first` is never set again, is cleared by a draw that returns a gap, and is kept by a draw that returns `None` |
| ExpSyn.Isi.constructor | ExpSyn.py:26-28 | a new generator is in the fresh state: `n == 0` and `first` set |
| ExpSyn.Isi.Get | ExpSyn.py:30-37 | the draw returns `Emit` of the old state: `None` past five draws, 20.0 on the first draw, 5.0 otherwise; the new state is `Next` of the old one |
| ExpSyn.Isi.Reset | ExpSyn.py:39-41 | from any state, restores the fresh state; so a reset generator behaves like a new one, and resetting twice changes nothing more |
| ExpSyn.FreshDraws | ExpSyn.py:26-37 | `k` draws from a fresh generator return 20.0, then 5.0 for draws 2 to 5, then `None`; they leave `n == k` and `first` set only if `k == 0` |
| ExpSyn.TraceFromReachable | ExpSyn.py:30-37 | after `m` draws, the next `k` draws continue the schedule at position `m` and leave the state reached after `m + k` draws |
| ExpSyn.CounterAdvances | ExpSyn.py:31 | every draw, including those returning `None`, increments `n` from any state |
| ExpSyn.TraceAt | ExpSyn.py:30-37 | the `i`-th of `k` draws returns what one draw returns from the state after `i` draws |
| ExpSyn.ExhaustedStaysExhausted | ExpSyn.py:31-33 | once a draw returns `None`, every later draw without a reset returns `None` |
| ExpSyn.GapsFromReachable | ExpSyn.py:30-37 | the non-`None` values drawn after `m` earlier draws are exactly the rest of the five-gap schedule |
| ExpSyn.FreshGaps | ExpSyn.py:26-37 | the non-`None` outputs of a fresh generator are exactly `[20.0, 5.0, 5.0, 5.0, 5.0]` |
| Parameters.PyParameter.constructor | parameters.py:22-24 | stores name, value, frozen flag, bounds and `param_name` unchanged |
| Parameters.PyParameter.Instantiate | parameters.py:27-28 | changes no object and records no call |
| Parameters.PyParameter.Destroy | parameters.py:31-32 | changes no object and records no call |
| Parameters.PyObjectParameter.constructor | parameters.py:49-53 | stores its arguments, including `param_name` and `py_objects`, unchanged |
| Parameters.PyObjectParameter.Instantiate | parameters.py:56-70 | a missing value fails with `MissingValue` before any object is touched; otherwise the objects and the call trace become those of `InstantiateSpec` (`setattr`, then a callable `instantiate`, per object in list order, stopping at the first exception) |
| Parameters.PyObjectParameter.Destroy | parameters.py:73-80 | objects unchanged; the call trace and failure are those of `DestroyRun` |
| Parameters.InstantiateStep | parameters.py:62-68 | one loop iteration: `setattr`, then a callable `instantiate`, nothing after an exception; it keeps the number of objects (its calls are stated by `StepCalls`) |
| Parameters.InstantiateRun | parameters.py:62-68 | the loop over the listed objects keeps the number of objects |
| Parameters.InstantiateFailureKinds | parameters.py:64-68 | the loop ends with no exception, a wrapped `TypeError` (`CannotInstantiate`) or another exception of an object's own `instantiate`, and makes at most two calls per object |
| Parameters.DestroyStep | parameters.py:76-80 | one loop iteration: a callable `destroy` is called, nothing after an exception; no object is written |
| Parameters.DestroyRun | parameters.py:75-80 | the destroy loop writes no object |
| Parameters.DestroyFailureKinds | parameters.py:76-80 | the destroy loop ends with no exception, a wrapped `TypeError` (`CannotDestroy`) or another exception of an object's own `destroy`, and makes at most one call per object |
| Parameters.InstantiateFrame | parameters.py:62-63 | only attribute `param_name` of the listed objects changes; hooks and all other attributes are kept, and unlisted objects are untouched |
| Parameters.InstantiateSetsAll | parameters.py:62-63 | after a run that raised nothing, every listed object has `param_name` equal to the value |
| Parameters.CallableAfterRun | parameters.py:63-64 | after the write, an object's `instantiate` is callable exactly when it has one and the written attribute is not named `instantiate` |
| Parameters.InstantiateSucceeds | parameters.py:64-68 | a run raises nothing exactly when no listed object with a callable `instantiate` raises |
| Parameters.InstantiateSetters | parameters.py:62-63 | on success `setattr` is called on every listed object in list order, and no `destroy` is called |
| Parameters.InstantiateInvocations | parameters.py:64-66 | on success `instantiate` is called on exactly the listed objects with a callable one, in list order; the others only get the attribute |
| Parameters.SetBeforeInstantiate | parameters.py:62-66 | each `instantiate` call comes right after the `setattr` of the value on the same object |
| Parameters.InstantiateStops | parameters.py:65-68 | once a prefix of the list has raised, the run over the whole list is that prefix's run: later objects are untouched |
| Parameters.FirstRaiseAborts | parameters.py:62-68 | if object `k` is the first to raise, the run fails with that object's error (a `TypeError` becomes `CannotInstantiate`), `setattr` was called on objects `0..k` only, and every other object is unchanged |
| Parameters.FirstRaiseKeepsWrites | parameters.py:62-68 | with the first exception at object `k`, objects `0..k` keep the new attribute: there is no rollback |
| Parameters.DestroyCalls | parameters.py:73-80 | `destroy` writes nothing and makes only `destroy` calls; it fails exactly when an object's `destroy` raises; on success it has called `destroy` on exactly the objects with one, in list order |
| Parameters.FirstDestroyRaiseAborts | parameters.py:75-80 | if object `k` is the first whose `destroy` raises, the run fails with that object's error (a `TypeError` becomes `CannotDestroy`, any other exception propagates as `Raised`), after calling `destroy` on exactly the objects `0..k` that have one |
| Parameters.DestroyStops | parameters.py:75-80 | after the first failing `destroy`, no later object is called |
| SpikeTrain.Destinations | spiketrain.py:22-23 | one `add_destination` call per synapse of a location |
| SpikeTrain.InstantiateEventsLength | spiketrain.py:15-23 | `Wiring` makes one call per location and one per synapse; `InstantiateEvents` adds the clear and the reset to that |
| SpikeTrain.DestinationsAdd | spiketrain.py:22-23 | the destination calls for one location add exactly its synapses, in order, and nothing else |
| SpikeTrain.WiringVisitsInOrder | spiketrain.py:21-22 | the wiring instantiates each location once, in list order |
| SpikeTrain.WiringAddsEverySynapse | spiketrain.py:21-23 | the wiring adds one destination per synapse of each location, location by location |
| SpikeTrain.WiringOnlyWires | spiketrain.py:21-23 | the wiring makes only location instantiations and `add_destination` calls |
| SpikeTrain.InstantiateOrder | spiketrain.py:15-23 | `instantiate` clears the netcons first and resets the generator second, and neither happens again; it then visits every location in order and adds every synapse |
| SpikeTrain.NrnSpikeTrainGenerator.constructor | spiketrain.py:8-12 | stores the generator, duration and locations unchanged; netcons start empty |
| SpikeTrain.NrnSpikeTrainGenerator.Reset | spiketrain.py:18 | records one generator reset; it may change the interval generator, and changes no field of the spike generator itself |
| SpikeTrain.NrnSpikeTrainGenerator.AddDestination | spiketrain.py:23 | records one `add_destination` of the synapse; it may change the netcons and no other field |
| SpikeTrain.NrnSpikeTrainGenerator.AddDestinations | spiketrain.py:22-23 | records one `add_destination` per synapse, in order |
| SpikeTrain.NrnSpikeTrainGenerator.Instantiate | spiketrain.py:15-23 | locations and duration unchanged; the recorded calls are `InstantiateEvents` of the locations; nothing is promised about the netcons, which `add_destination` creates |
| SpikeTrain.NrnSpikeTrainGenerator.Destroy | spiketrain.py:26-27 | netcons empty; generator, locations and duration untouched; a second call gives the same state |
| PointProcess.RoundHalfEven | point_process.py:51 | the result is the closest integer, and a tie is broken to the even one (Python's `round`) |
| PointProcess.RoundHalfEvenUnique | point_process.py:51 | those two properties determine the result |
| PointProcess.EntryCount | point_process.py:51 | `len([None] * int(round(n)))`: zero for `n <= 0.5`, including negative counts, and otherwise the rounded `n` |
| PointProcess.EntryCountOfInteger | point_process.py:51 | an integral count `k` gives `max(0, k)` entries |
| PointProcess.NrnPointProcess.constructor | point_process.py:8-10 | a new handle on the given suffix and locations with a fresh location object, not yet instantiated |
| PointProcess.NrnPointProcess.Instantiate | point_process.py:13-14 | marks the handle live and records its mechanism's instantiation |
| PointProcess.NrnPointProcess.Destroy | point_process.py:17-18 | marks the handle released and records its mechanism's destruction |
| PointProcess.InstantiatedEvents | point_process.py:53-55 | one mechanism instantiation per entry |
| PointProcess.DestroyedEvents | point_process.py:71-72 | one mechanism destruction per entry |
| PointProcess.InstantiatedEventsAt | point_process.py:53-55 | the `i`-th recorded instantiation is that of entry `i`'s mechanism: entries are instantiated in index order |
| PointProcess.DestroyedEventsAt | point_process.py:71-72 | the `i`-th recorded destruction is that of entry `i`'s mechanism: entries are destroyed in index order |
| PointProcess.InstantiatedEventsFor | point_process.py:53-55 | the entry loop instantiates exactly the entries' mechanisms and destroys none |
| PointProcess.DestroyedEventsFor | point_process.py:71-72 | the destroy loop destroys exactly the entries' mechanisms and instantiates none |
| PointProcess.LookupFree | point_process.py:66-67 | a free name's binding is its current `getattr(group, name)` value, however often the name is listed, and a name that is not free has none |
| PointProcess.ParamEvents | point_process.py:45-47 | one parameter instantiation per binding |
| PointProcess.ParamEventsAt | point_process.py:45-47 | the `i`-th parameter instantiation is that of a frozen object built from binding `i` and bound to the entry locations |
| PointProcess.BindKeys | point_process.py:45-46 | `_mk_parameter` keeps every existing key and adds every bound name; each entry it makes carries its own name, is frozen and is bound to the entry locations |
| PointProcess.BindLookup | point_process.py:45-46 | after the `_mk_parameter` calls, a name holds a frozen parameter object made from its last binding and bound to the given locations; other names keep their old entry |
| PointProcess.ParameterTable | point_process.py:61-67 | the keys of `param_obj` are the old keys plus the fixed and free names; a free name takes its current attribute value even when it clashes with a fixed name; a fixed name takes its keyword value; every new entry is bound to all entry locations |
| PointProcess.ParamEventsOnlyParameters | point_process.py:45-47 | `_mk_parameter` only instantiates parameter objects |
| PointProcess.RebuildEventsShape | point_process.py:50-67 | a group `instantiate` records entry `i`'s mechanism at position `i`, then the source's clear and reset, and ends with one parameter instantiation per binding; in all, one call per entry, two for the source, one per location and per synapse, and one per binding |
| PointProcess.RebuildDestroysNothing | point_process.py:50-67 | a group `instantiate` destroys no mechanism, and instantiates exactly the mechanisms of its new entries |
| PointProcess.PointProcessGroup.constructor | point_process.py:23-42 | a single location is wrapped into a list and a list is kept; `n == 0`, no entries, empty `param_obj`, and every free name has attribute 0.0 |
| PointProcess.PointProcessGroup.SetAttr | parameters.py:63 | `setattr(group, name, value)` writes `n` or the named attribute and nothing else |
| PointProcess.PointProcessGroup.MkParameter | point_process.py:45-47 | stores a frozen parameter object under the name, replacing any earlier one, and records its instantiation |
| PointProcess.PointProcessGroup.BuildEntries | point_process.py:51-55 | `count` distinct fresh entries on the group's suffix and locations, each instantiated, in index order |
| PointProcess.PointProcessGroup.MkParameters | point_process.py:61-67 | `param_obj` and the recorded calls are those of `_mk_parameter` applied to each binding in turn |
| PointProcess.PointProcessGroup.MkAllParameters | point_process.py:61-67 | the fixed parameters are made first, then the free ones with their current values |
| PointProcess.PointProcessGroup.RebuildEntries | point_process.py:51-59 | a fresh batch of `EntryCount(n)` live entries replaces the old one, whose entries keep their status; `source.locations` are the entries' locations in order; the source is instantiated after all entries |
| PointProcess.PointProcessGroup.Instantiate | point_process.py:50-67 | as `RebuildEntries`, then `param_obj` is `Bind` of the fixed and free bindings, with `n` and the attributes unchanged; the recorded calls are entries, then source, then parameters |
| PointProcess.PointProcessGroup.Destroy | point_process.py:70-77 | every entry is released, the source is destroyed once, `n == 0`, no entries, empty `param_obj`; on an empty group only the source is destroyed |
| Script.InstantiateOnGroup | parameters.py:56-66 | a parameter whose only target is the group: a missing value fails and changes neither the group, its source nor the log; otherwise the attribute is written; the group's `instantiate` stays callable exactly when it was and the written name is not `instantiate`; when it is not callable nothing else changes; otherwise the group is rebuilt as by its own `instantiate`: fresh, distinct, live entries on its suffix and sections, the source pointed at their locations with its duration kept, `param_obj` rebound and the rebuild's calls recorded |
| Script.InstantiateSynapseParameters | ExpSyn.py:91-103 | for a group whose `instantiate` is not shadowed (the script's only free name is `gmax`), after `syn_circ_nsyn` then `syn_circ_gmax`, the group holds `EntryCount(nsyn)` entries and the new `gmax`; the first rebuild's entries are live, not in the group, and their locations are not the group's |
| Script.FirstBatchLeaks | point_process.py:50-77 | in the trace of two rebuilds and a group `destroy`, a first-batch location that is not in the second batch was instantiated and never destroyed |
| Script.InstantiateThenDestroy | ExpSyn.py:91-103 | for a group whose `instantiate` is not shadowed, after both synapse parameters are instantiated and the group is destroyed, each first-batch entry is still live, and its mechanism was instantiated during the run and never destroyed |

## Left out

- `main()` in ExpSyn.py (morphology, protocol, features, evaluator, optimisation run,
  plotting) is simulator and optimizer wiring. Only the two synapse parameters and
  their shared group are modelled.
- The NEURON mechanism, location and parameter objects are opaque handles. What their
  own `instantiate`/`destroy` do inside the simulator is reduced to a recorded call.
- The inherited `reset()` and `add_destination()` of the spike generator, and the
  spike-time scheduling and netcon creation of its base class, are not modelled. They
  appear only as recorded calls. So after the generator's `instantiate` (and the group's,
  which calls it) nothing is promised about `_netcons` or about the state of the
  interval generator `isi_gen`, which `reset()` may restart.
- The `icell` argument is not modelled anywhere it appears: the `instantiate` of
  `NrnPointProcess`, of the group, of the spike generator and of `PyObjectParameter`, and
  `_mk_parameter`. The `sim=None` defaults are not modelled either; `sim` is always the
  `Simulator` log object.
- Parameters.InstantiateFrame, Parameters.InstantiateSetsAll, Parameters.FirstRaiseAborts:
  an object's own `instantiate` and `destroy` are modelled as recorded calls that change
  no object in the `Heap`. These lemmas hold under that assumption. A target whose
  `instantiate` rewrites its own state, such as the point-process group, is modelled
  separately in `Script.InstantiateOnGroup`.
- Failures inside the simulator handles (a mechanism or location that raises) are not
  modelled; only the parameter objects' hooks can raise.
- Floating-point values such as `gmax`, `tau` and `n` are mathematical reals. Float
  rounding is not modelled, except Python's ties-to-even `round` used for the entry count.
- Name strings (`'mech_{name}'`, `"param_{self.suffix}_{name}"`) are not modelled.
  They are plain strings, not f-strings, so they would not be unique anyway.
- Logging and `__str__` produce no state and are left out.
- Parameters.PyObjectParameter.constructor: the `None` defaults of `param_name` and
  `py_objects` are not modelled; both are required arguments.
- Parameters.PyObjectParameter.Instantiate: the `TypeError` message text is not
  modelled. The failure says only which object raised and how.
- PointProcess.PointProcessGroup.SetAttr: a bound parameter that writes one of the
  group's own fields other than `n` (`pprocess`, `source`, ...) is not modelled.
  Any other name goes into `attrs`.
- PointProcess.PointProcessGroup.constructor: a free name equal to one of the group's
  own fields is not modelled either. In the source, `suffix`, `locations`,
  `fixed_param_value` and `free_param_name` would be overwritten with 0.0
  (point_process.py:37), and `param_obj`, `n`, `pprocess` and `source` would be set again
  right after (point_process.py:39-42). The model puts every free name other than `n`
  into `attrs` with 0.0.
- The script also hands the group to the cell model as a mechanism (ExpSyn.py:118) and
  the spike generator to the protocol as a stimulus (ExpSyn.py:128). What bluepyopt's
  cell model and protocol do with them, including when they call `instantiate` and
  `destroy`, is not modelled; `Script` composes only the two parameters and the group.
- The shared mutable default `locations=[]` of spiketrain.py:8 is a fresh empty
  sequence in the model. The group always reassigns `source.locations` anyway.
- The `bounds` and `frozen` arguments are stored but not used. The optimizer that reads
  them is not modelled.
