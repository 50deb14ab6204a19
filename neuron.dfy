/** Opaque stand-ins for the NEURON and bluepyopt handles the core creates and passes
    around, and the simulator context every `instantiate`/`destroy` receives. */
module Neuron {

  /** A section location a group is placed on (a bluepyopt location object). */
  datatype SectionLocation = SectionLocation(id: nat)

  /** A synapse object that instantiating a point-process location yields. */
  datatype Synapse = Synapse(id: nat)

  /** The location handle of one point process (`NrnPointProcessLocation`); only its
      identity matters, so it is a class. */
  class PointLocation {
    const suffix: string
    const sections: seq<SectionLocation>

    constructor (suffix: string, sections: seq<SectionLocation>)
      ensures this.suffix == suffix && this.sections == sections
    {
      this.suffix := suffix;
      this.sections := sections;
    }
  }

  /** A point-process parameter object (`NrnPointProcessParameter`) as it is built. */
  datatype PointParameter = PointParameter(paramName: string, value: real, frozen: bool, locations: seq<PointLocation>)

  /** A call the core makes into code it cannot see, in the order it makes them. */
  datatype Event =
    | MechanismInstantiated(location: PointLocation)  // a point process's mechanism is instantiated
    | MechanismDestroyed(location: PointLocation)     // ... and destroyed
    | NetconsCleared                                  // a spike generator drops its netcons
    | GeneratorReset                                  // the inherited `reset()`
    | LocationInstantiated(location: PointLocation)   // `location.instantiate(...)`
    | DestinationAdded(synapse: Synapse)              // the inherited `add_destination(syn)`
    | ParameterInstantiated(parameter: PointParameter)

  /** The simulator context; `events` records what was done to it. */
  class Simulator {
    var events: seq<Event>

    constructor ()
      ensures events == []
    {
      events := [];
    }
  }
}
