/** Where a failing request takes a drill: which failures end it without a sandbox, which without evidence, and which
    are written down in the evidence. */
module DrillExits {
  import opened Clock
  import opened Wrappers
  import opened Resources
  import opened DrillRun
  import opened DrillSafety
  import opened Providers

  /** The main thread's request fails: it is not granted, or the container to start is no longer there. */
  predicate Fails(cfg: Config, s: State, e: Event) {
    e.MainStep? && s.main.At? && s.main.pc < |cfg.program| &&
    match cfg.program[s.main.pc].op
    case Call => e.fate != Granted
    case Create(_, _) => e.fate != Granted
    case Start(slot) => e.fate != Granted || slot !in s.handles || s.handles[slot] !in s.o.w
    case Reserve(_) => false
    case Arm => false
  }

  /** The positions of the requests that failed in a run. */
  function FailedSteps(cfg: Config, s0: State, events: seq<Event>): set<nat>
    requires Run(cfg, s0, events).Some?
  {
    if events == [] then {}
    else
      var init, e := events[..|events| - 1], events[|events| - 1];
      var s := Run(cfg, s0, init).value;
      FailedSteps(cfg, s0, init) + if Fails(cfg, s, e) then {s.main.pc} else {}
  }

  /** Writing the evidence failed. */
  predicate WriteFailed(cfg: Config, s0: State, events: seq<Event>)
    requires Run(cfg, s0, events).Some?
  {
    events != [] &&
    var init, e := events[..|events| - 1], events[|events| - 1];
    WriteFailed(cfg, s0, init) || (Run(cfg, s0, init).value.main.Writing? && e.MainStep? && e.fate != Granted)
  }

  /** Some request failed that is answered in this way. */
  predicate FailedWith(cfg: Config, failed: set<nat>, onFail: OnFail) {
    exists pc <- failed :: pc < |cfg.program| && cfg.program[pc].onFail == onFail
  }

  /** Where the main thread stands, by the requests that have failed. */
  predicate Exited(cfg: Config, s: State, failed: set<nat>, writeFailed: bool) {
    var bail, cleanup := FailedWith(cfg, failed, Bail), FailedWith(cfg, failed, Cleanup);
    var abort := FailedWith(cfg, failed, Abort);
    match s.main
    case At(_) => !bail && !cleanup && !abort && !writeFailed && s.written.None?
    case Ended(Bailed) => bail && !cleanup && !abort && s.written.None?
    case InDestroy(FailedProvision) => cleanup && !bail && !abort && s.written.None?
    case Ended(Unprovisioned) => cleanup && !bail && !abort && s.written.None?
    case InDestroy(BeforeEvidence) => !bail && !cleanup && !abort && !writeFailed && s.written.None?
    case Writing => !bail && !cleanup && !abort && !writeFailed && s.written.None?
    case InDestroy(Deferred) => !bail && !cleanup && (s.written.Some? <==> !abort && !writeFailed)
    case Ended(Finished) => !bail && !cleanup && (s.written.Some? <==> !abort && !writeFailed)
  }

  lemma Grown(cfg: Config, failed: set<nat>, pc: nat, onFail: OnFail)
    requires pc < |cfg.program|
    ensures FailedWith(cfg, failed + {pc}, onFail) <==>
      FailedWith(cfg, failed, onFail) || cfg.program[pc].onFail == onFail
  {
  }

  lemma ExecuteExits(cfg: Config, s: State, e: Event, failed: set<nat>)
    requires e.MainStep? && s.main.At? && s.main.pc < |cfg.program| && Next(cfg, s, e).Some?
    requires Exited(cfg, s, failed, false)
    ensures Exited(cfg, Next(cfg, s, e).value, failed + (if Fails(cfg, s, e) then {s.main.pc} else {}), false)
  {
    forall onFail {
      Grown(cfg, failed, s.main.pc, onFail);
    }
    assert failed + {} == failed;
  }

  lemma OtherExits(cfg: Config, s: State, e: Event, failed: set<nat>, writeFailed: bool)
    requires Next(cfg, s, e).Some? && !(e.MainStep? && s.main.At? && s.main.pc < |cfg.program|)
    requires Exited(cfg, s, failed, writeFailed)
    ensures var lost := s.main.Writing? && e.MainStep? && e.fate != Granted;
      Exited(cfg, Next(cfg, s, e).value, failed, writeFailed || lost)
  {
  }

  lemma {:induction false} RunExits(cfg: Config, s0: State, events: seq<Event>)
    requires Initial(s0) && Run(cfg, s0, events).Some?
    ensures Exited(cfg, Run(cfg, s0, events).value, FailedSteps(cfg, s0, events), WriteFailed(cfg, s0, events))
  {
    if events != [] {
      var init, e := events[..|events| - 1], events[|events| - 1];
      var s := Run(cfg, s0, init).value;
      RunExits(cfg, s0, init);
      if e.MainStep? && s.main.At? && s.main.pc < |cfg.program| {
        ExecuteExits(cfg, s, e, FailedSteps(cfg, s0, init));
      } else {
        OtherExits(cfg, s, e, FailedSteps(cfg, s0, init), WriteFailed(cfg, s0, init));
        assert FailedSteps(cfg, s0, init) + {} == FailedSteps(cfg, s0, init);
      }
    }
  }

  /** How a program answers each failure, by position: with no sandbox and nothing to clean up, with a cleanup, or by
      leaving without evidence; the rest is written down. */
  predicate Answers(cfg: Config, bail: set<nat>, cleanup: set<nat>, abort: set<nat>) {
    forall pc: nat :: pc < |cfg.program| && Fallible(cfg.program[pc].op) ==>
      cfg.program[pc].onFail ==
        if pc in bail then Bail else if pc in cleanup then Cleanup else if pc in abort then Abort else Proceed
  }

  predicate Fallible(op: Op) {
    !op.Reserve? && !op.Arm?
  }

  lemma {:induction false} FailedAreFallible(cfg: Config, s0: State, events: seq<Event>)
    requires Run(cfg, s0, events).Some?
    ensures forall pc <- FailedSteps(cfg, s0, events) :: pc < |cfg.program| && Fallible(cfg.program[pc].op)
  {
    if events != [] {
      FailedAreFallible(cfg, s0, events[..|events| - 1]);
    }
  }

  /** The end of a drill, from the requests that failed: without a sandbox, without evidence, or with it. */
  predicate EndTells(s: State, failed: set<nat>, writeFailed: bool, bail: set<nat>, cleanup: set<nat>,
                     abort: set<nat>) {
    && (s.main == Ended(Bailed) <==> exists pc <- failed :: pc in bail)
    && (s.main == Ended(Unprovisioned) <==> exists pc <- failed :: pc in cleanup)
    && (s.written.Some? <==> !writeFailed && forall pc <- failed :: pc !in bail + cleanup + abort)
  }

  lemma EndOfDrill(cfg: Config, s0: State, events: seq<Event>, bail: set<nat>, cleanup: set<nat>, abort: set<nat>)
    requires Initial(s0) && Run(cfg, s0, events).Some? && Run(cfg, s0, events).value.main.Ended?
    requires Answers(cfg, bail, cleanup, abort) && bail !! cleanup !! abort
    ensures EndTells(Run(cfg, s0, events).value, FailedSteps(cfg, s0, events), WriteFailed(cfg, s0, events),
                     bail, cleanup, abort)
  {
    RunExits(cfg, s0, events);
    FailedAreFallible(cfg, s0, events);
    var failed := FailedSteps(cfg, s0, events);
    assert FailedWith(cfg, failed, Bail) <==> exists pc <- failed :: pc in bail;
    assert FailedWith(cfg, failed, Cleanup) <==> exists pc <- failed :: pc in cleanup;
    assert FailedWith(cfg, failed, Abort) <==> exists pc <- failed :: pc in abort;
  }

  lemma DockerAnswers(ttl: Time)
    ensures Answers(Docker(ttl), {0, 1}, {2, 3, 4, 5, 6}, {9})
  {
  }

  /** Docker: the ping and the network end the drill at once; anything up to the inspection cleans up; a connection for
      verification that fails leaves no evidence; a failed restore or check does not keep the evidence from being
      written. */
  lemma DockerEnds(ttl: Time, s0: State, events: seq<Event>)
    requires Initial(s0) && Run(Docker(ttl), s0, events).Some? && Run(Docker(ttl), s0, events).value.main.Ended?
    ensures EndTells(Run(Docker(ttl), s0, events).value, FailedSteps(Docker(ttl), s0, events),
                     WriteFailed(Docker(ttl), s0, events), {0, 1}, {2, 3, 4, 5, 6}, {9})
  {
    DockerAnswers(ttl);
    EndOfDrill(Docker(ttl), s0, events, {0, 1}, {2, 3, 4, 5, 6}, {9});
  }

  lemma KubernetesAnswers(ttl: Time)
    ensures Answers(Kubernetes(ttl), {0}, {2, 3, 4, 5, 6}, {9})
  {
  }

  /** Kubernetes: only the client's configuration ends it at once, for the pod's name is fixed next. */
  lemma KubernetesEnds(ttl: Time, s0: State, events: seq<Event>)
    requires Initial(s0) && Run(Kubernetes(ttl), s0, events).Some? && Run(Kubernetes(ttl), s0, events).value.main.Ended?
    ensures EndTells(Run(Kubernetes(ttl), s0, events).value, FailedSteps(Kubernetes(ttl), s0, events),
                     WriteFailed(Kubernetes(ttl), s0, events), {0}, {2, 3, 4, 5, 6}, {9})
  {
    KubernetesAnswers(ttl);
    EndOfDrill(Kubernetes(ttl), s0, events, {0}, {2, 3, 4, 5, 6}, {9});
  }

  lemma VeleroAnswers(ttl: Time)
    ensures Answers(Velero(ttl), {0, 2}, {3}, {})
  {
  }

  /** Velero: reading the Backup and creating the namespace end it at once, the network policy cleans up, and whatever
      fails after that is written down. */
  lemma VeleroEnds(ttl: Time, s0: State, events: seq<Event>)
    requires Initial(s0) && Run(Velero(ttl), s0, events).Some? && Run(Velero(ttl), s0, events).value.main.Ended?
    ensures EndTells(Run(Velero(ttl), s0, events).value, FailedSteps(Velero(ttl), s0, events),
                     WriteFailed(Velero(ttl), s0, events), {0, 2}, {3}, {})
  {
    VeleroAnswers(ttl);
    EndOfDrill(Velero(ttl), s0, events, {0, 2}, {3}, {});
  }
}
