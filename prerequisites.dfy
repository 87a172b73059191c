/**
 * The two dependencies the network configuration waits for: the vmnet
 * binaries and the sudoers file. Each answers `Installed()` from its own
 * state; every question asked is recorded, in order, on a recorder the two
 * share, so "asked first" and "never asked" can be stated.
 */
module Prerequisites {

  datatype DependencyId = Binaries | Sudoers

  /** The ordered record of `Installed()` queries made to dependencies. */
  class CallRecorder {
    var calls: seq<DependencyId>

    constructor ()
      ensures calls == []
    {
      calls := [];
    }
  }

  class Dependency {
    const id: DependencyId
    const recorder: CallRecorder
    var installed: bool

    constructor (id0: DependencyId, recorder0: CallRecorder, installed0: bool)
      ensures id == id0 && recorder == recorder0 && installed == installed0
    {
      id := id0;
      recorder := recorder0;
      installed := installed0;
    }

    method Installed() returns (b: bool)
      modifies recorder
      ensures b == installed
      ensures recorder.calls == old(recorder.calls) + [id]
    {
      recorder.calls := recorder.calls + [id];
      b := installed;
    }
  }

  /** The decision of shouldAddNetworksConfig and the queries it makes. */
  datatype GateOutcome = GateOutcome(proceed: bool, queried: seq<DependencyId>)

  /**
   * The prerequisite gate: proceed exactly when both dependencies are
   * installed; the binaries are asked first, the sudoers file only when the
   * binaries are installed, and nobody is asked twice.
   */
  function Gate(binariesInstalled: bool, sudoersInstalled: bool): (g: GateOutcome)
    ensures g.proceed <==> binariesInstalled && sudoersInstalled
    ensures |g.queried| > 0 && g.queried[0] == Binaries
    ensures Sudoers in g.queried <==> binariesInstalled
    ensures forall i, j :: 0 <= i < j < |g.queried| ==> g.queried[i] != g.queried[j]
  {
    if !binariesInstalled then GateOutcome(false, [Binaries])
    else GateOutcome(sudoersInstalled, [Binaries, Sudoers])
  }
}
