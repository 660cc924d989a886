/** Asking Velero for a restore and waiting for it to end. */
module VeleroRestore {
  import opened Wrappers

  type Nanos = int

  /** What the API server and the clock answer. `phase` is None when the poll fails; `done` says that the context
      ended before that poll. The clock is read at the start, and again at each poll. */
  datatype Server = Server(created: bool, done: nat -> bool, phase: nat -> Option<string>, clock: nat -> Nanos)

  datatype Result = Result(duration: Nanos, phase: string)

  const COMPLETED := "Completed"
  const FAILED := "Failed"
  const PARTIALLY_FAILED := "PartiallyFailed"

  /** Velero's own end phases, and any variant of failure it may come to have. */
  predicate Terminal(phase: string) {
    phase == COMPLETED || phase == PARTIALLY_FAILED || FAILED <= phase
  }

  /** Every phase that says a restore is over is taken for an end, and none that says it goes on. */
  lemma EndPhases(suffix: string)
    ensures Terminal("Completed") && Terminal("PartiallyFailed") && Terminal("Failed" + suffix)
    ensures !Terminal("New") && !Terminal("InProgress") && !Terminal("WaitingForPluginOperations") && !Terminal("")
  {
    assert FAILED[0] == 'F' && COMPLETED[0] == 'C' && PARTIALLY_FAILED[0] == 'P';
  }

  predicate EndsAt(s: Server, i: nat) {
    s.phase(i).Some? && Terminal(s.phase(i).value)
  }

  /** The poll that decides: no earlier one saw an end, and the context lasted that long. */
  predicate Decides(s: Server, i: nat) {
    s.created && EndsAt(s, i) && (forall j: nat :: j < i ==> !EndsAt(s, j)) && (forall j: nat :: j <= i ==> !s.done(j))
  }

  class Drill {
    var restoreName: Option<string>

    constructor ()
      ensures restoreName == None
    {
      restoreName := None;
    }

    /** The name is fixed before the object is asked for, so that a teardown can find it even when the reply is lost.
        There is a result exactly when some poll sees an end before the context is over, it is the first such poll's,
        and the restore counts as a success exactly when that phase is Completed. The context ends by poll `bound`. */
    method Restore(s: Server, name: string, bound: nat) returns (res: Option<Result>, ok: bool)
      requires s.done(bound)
      modifies this
      ensures restoreName == Some(name)
      ensures res.Some? <==> exists i: nat :: Decides(s, i)
      ensures forall i: nat :: Decides(s, i) ==> res == Some(Result(s.clock(i + 1) - s.clock(0), s.phase(i).value))
      ensures ok <==> exists i: nat :: Decides(s, i) && s.phase(i) == Some("Completed")
    {
      restoreName := Some(name);
      var start := s.clock(0);
      if !s.created {
        return None, false;
      }
      var i: nat := 0;
      while !s.done(i)
        invariant restoreName == Some(name) && i <= bound
        invariant forall j: nat :: j < i ==> !EndsAt(s, j) && !s.done(j)
        decreases bound - i
      {
        var answer := s.phase(i);
        if answer.None? {
          i := i + 1;
          continue;
        }
        var phase := answer.value;
        if phase == COMPLETED || phase == PARTIALLY_FAILED || FAILED <= phase {
          assert Decides(s, i);
          res := Some(Result(s.clock(i + 1) - start, phase));
          return res, phase == COMPLETED;
        }
        i := i + 1;
      }
      return None, false;
    }
  }
}
