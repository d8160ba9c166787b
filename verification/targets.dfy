/** The external objects a controller reads and writes: the conductance or
    synapse it regulates and the compartment that houses it. Only the fields
    the controllers touch are modelled. */
module Targets {
  import opened Values

  /** A compartment: its surface area `A`, the calcium set-point (possibly
      NaN), the previous step's calcium concentration and calcium current,
      and how many mechanisms have registered with it. */
  datatype Compartment = Compartment(
    area: real,
    caTarget: Double,
    caPrev: real,
    iCaPrev: real,
    mechanisms: nat)

  /** An ion channel: its conductance density, the buffer the host commits
      into `gbar` after the step, and its housing compartment. */
  datatype Conductance = Conductance(gbar: real, gbarNext: real, container: Compartment)

  /** A synapse: its maximal conductance and its post-synaptic compartment. */
  datatype Synapse = Synapse(gmax: real, postSyn: Compartment)

  /** `addMechanism`: the compartment records one more attached mechanism
      and nothing else about it changes. */
  function AddMechanism(c: Compartment): (r: Compartment)
    ensures r.mechanisms == c.mechanisms + 1
    ensures r.(mechanisms := c.mechanisms) == c
  {
    c.(mechanisms := c.mechanisms + 1)
  }
}
