/** A drill ends: under every schedule its two threads take a bounded number of steps. */
module DrillEnds {
  import opened Wrappers
  import opened Resources
  import opened DrillRun
  import opened DrillSafety

  predicate IsThreadStep(e: Event) {
    e.MainStep? || e.WatchStep?
  }

  function ThreadSteps(events: seq<Event>): nat {
    if events == [] then 0
    else ThreadSteps(events[..|events| - 1]) + if IsThreadStep(events[|events| - 1]) then 1 else 0
  }

  /** Steps left in the body that sync.Once guards. */
  function OnceRank(once: Once): nat {
    match once
    case Fresh => 5
    case Running(_, Cancel) => 4
    case Running(_, Remove(First)) => 3
    case Running(_, Remove(Second)) => 2
    case Running(_, Store) => 1
    case Done => 0
  }

  /** Steps left to the main thread outside that body. */
  function MainRank(cfg: Config, main: MainPc): nat {
    match main
    case At(pc) => if pc <= |cfg.program| then |cfg.program| - pc + 4 else 0
    case InDestroy(BeforeEvidence) => 3
    case Writing => 2
    case InDestroy(_) => 1
    case Ended(_) => 0
  }

  function WatchRank(watch: WatchPc): nat {
    match watch
    case Off => 2
    case Armed => 2
    case Destroying => 1
    case Exited => 0
  }

  function Rank(cfg: Config, s: State): nat {
    OnceRank(s.t.once) + MainRank(cfg, s.main) + WatchRank(s.watch)
  }

  lemma ExecuteRank(cfg: Config, s: State, fate: Fate, id: Id)
    requires s.main.At? && s.main.pc < |cfg.program| && (cfg.program[s.main.pc].op.Arm? ==> s.watch.Off?)
    requires Execute(cfg, s, s.main.pc, fate, id).Some?
    ensures Rank(cfg, Execute(cfg, s, s.main.pc, fate, id).value) < Rank(cfg, s)
  {
  }

  /** Every step of a thread brings the end nearer; the clock and the environment do not put it off. */
  lemma StepRank(cfg: Config, s: State, e: Event)
    requires WellFormed(cfg) && EvidenceInv(s) && ProgramInv(cfg, s) && Next(cfg, s, e).Some?
    ensures Rank(cfg, Next(cfg, s, e).value) + (if IsThreadStep(e) then 1 else 0) <= Rank(cfg, s)
  {
    if Executes(cfg, s, e) {
      ExecuteRank(cfg, s, e.fate, e.id);
    } else {
      OtherwiseWeathers(cfg, s, e);
    }
  }

  lemma {:induction false} RunRank(cfg: Config, s: State, events: seq<Event>)
    requires WellFormed(cfg) && Inv(cfg, s) && Run(cfg, s, events).Some?
    ensures Rank(cfg, Run(cfg, s, events).value) + ThreadSteps(events) <= Rank(cfg, s)
  {
    if events != [] {
      var init := events[..|events| - 1];
      RunRank(cfg, s, init);
      RunKeepsInv(cfg, s, init);
      StepRank(cfg, Run(cfg, s, init).value, events[|events| - 1]);
    }
  }

  /** A drill takes at most as many steps as its program has requests, and eleven more. */
  lemma DrillIsBounded(cfg: Config, s0: State, events: seq<Event>)
    requires WellFormed(cfg) && Initial(s0) && Run(cfg, s0, events).Some?
    ensures ThreadSteps(events) <= |cfg.program| + 11
  {
    InitialInv(cfg, s0);
    RunRank(cfg, s0, events);
  }

  /** So a teardown that the main thread waits for ends: when neither thread can go on, it is over. */
  lemma TeardownEnds(cfg: Config, s0: State, events: seq<Event>)
    requires WellFormed(cfg) && Initial(s0) && Run(cfg, s0, events).Some?
    requires var s := Run(cfg, s0, events).value;
             forall e :: IsThreadStep(e) ==> Next(cfg, s, e).None?
    ensures !Run(cfg, s0, events).value.main.InDestroy? && ThreadSteps(events) <= |cfg.program| + 11
  {
    DrillIsBounded(cfg, s0, events);
    var s := Run(cfg, s0, events).value;
    assert Reachable(cfg, s);
    if s.main.InDestroy? {
      TeardownGoesOn(cfg, s);
    }
  }
}
