/**
 * How a pass of an importer over a topology ends: with the new state, with
 * an exception (a KeyError, AttributeError, IndexError, ValueError or
 * ImportError of the source), or never (a geo-chain walk caught in a cycle).
 */
module Runs {
  import opened Yaramo

  datatype Run = Done(state: TopoState) | Raises | Hangs

  /** What an importer method reports; the new state is the topology itself. */
  datatype Status = Finished | Raised | Hung

  /** The run a method reports with `status` when its topology is in state `s`. */
  function RunOf(status: Status, s: TopoState): Run
  {
    match status
    case Finished => Done(s)
    case Raised => Raises
    case Hung => Hangs
  }
}
