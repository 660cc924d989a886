/** Exactly what a drill leaves behind when nobody else interferes: the creations whose reply was lost, and those that
    reached the server after teardown had passed them. */
module DrillExact {
  import opened Wrappers
  import opened Resources
  import opened DrillRun
  import opened DrillSafety

  /** Nobody else touches the outside world. */
  predicate Quiet(events: seq<Event>) {
    forall i :: 0 <= i < |events| ==> !events[i].Environment?
  }

  /** The id that a creation request is for. */
  function Target(s: State, op: Op, id: Id): Id
    requires op.Create? && (op.learned || op.slot in s.handles)
  {
    if op.learned then id else s.handles[op.slot]
  }

  /** The step is a creation that reached the server. */
  predicate Creates(cfg: Config, s: State, e: Event) {
    Executes(cfg, s, e) && cfg.program[s.main.pc].op.Create? && !e.fate.Refused? &&
    (cfg.program[s.main.pc].op.learned || cfg.program[s.main.pc].op.slot in s.handles)
  }

  /** Its reply was lost, and the drill either would have learned the id from it or gives up without a teardown. */
  predicate LosesCreation(cfg: Config, s: State, e: Event) {
    Creates(cfg, s, e) && e.fate.Lost? &&
    (cfg.program[s.main.pc].op.learned || cfg.program[s.main.pc].onFail.Bail?)
  }

  /** It came when teardown would no longer look. */
  predicate CreatesLate(cfg: Config, s: State, e: Event) {
    Creates(cfg, s, e) && Passed(s.t.once, cfg.program[s.main.pc].op.slot)
  }

  /** The id that a step creates and loses, if it does. */
  function Lost(cfg: Config, s: State, e: Event): set<Id> {
    if LosesCreation(cfg, s, e) then {Target(s, cfg.program[s.main.pc].op, e.id)} else {}
  }

  /** The id that a step creates too late, if it does. */
  function Late(cfg: Config, s: State, e: Event): set<Id> {
    if CreatesLate(cfg, s, e) then {Target(s, cfg.program[s.main.pc].op, e.id)} else {}
  }

  /** The ids of the creations whose reply was lost in such a way. */
  function LostCreations(cfg: Config, s0: State, events: seq<Event>): set<Id>
    requires Run(cfg, s0, events).Some?
  {
    if events == [] then {}
    else
      var init := events[..|events| - 1];
      LostCreations(cfg, s0, init) + Lost(cfg, Run(cfg, s0, init).value, events[|events| - 1])
  }

  /** The ids of the creations that came too late for teardown. */
  function LateCreations(cfg: Config, s0: State, events: seq<Event>): set<Id>
    requires Run(cfg, s0, events).Some?
  {
    if events == [] then {}
    else
      var init := events[..|events| - 1];
      LateCreations(cfg, s0, init) + Late(cfg, Run(cfg, s0, init).value, events[|events| - 1])
  }

  lemma OneStepRecords(cfg: Config, s: State, e: Event)
    requires Next(cfg, s, e).Some?
    ensures var o := Next(cfg, s, e).value.o;
            o.orphans == s.o.orphans + Lost(cfg, s, e) && o.late == s.o.late + Late(cfg, s, e)
  {
    if !Executes(cfg, s, e) {
      OtherwiseWeathers(cfg, s, e);
    }
  }

  /** The model's records of orphans and late creations are what the events say, in every environment. */
  lemma {:induction false} RecordsFollowEvents(cfg: Config, s0: State, events: seq<Event>)
    requires Initial(s0) && Run(cfg, s0, events).Some?
    ensures Run(cfg, s0, events).value.o.orphans == LostCreations(cfg, s0, events)
    ensures Run(cfg, s0, events).value.o.late == LateCreations(cfg, s0, events)
  {
    if events != [] {
      var init := events[..|events| - 1];
      RecordsFollowEvents(cfg, s0, init);
      OneStepRecords(cfg, Run(cfg, s0, init).value, events[|events| - 1]);
    }
  }

  predicate Alive(w: World, id: Id) {
    id in w && !w[id].terminating
  }

  /** An orphan stays: only a drill that gave up without a teardown still has its name. */
  predicate OrphansStay(s: State) {
    forall id <- s.o.orphans :: id in s.o.mine && Alive(s.o.w, id) && (Held(s.handles, id) ==> s.main == Ended(Bailed))
  }

  predicate HeldPassed(s: State, id: Id) {
    (First in s.handles && s.handles[First] == id && Passed(s.t.once, First)) ||
    (Second in s.handles && s.handles[Second] == id && Passed(s.t.once, Second))
  }

  /** A late resource stays: teardown has passed the slot that holds it. */
  predicate LateStays(s: State) {
    forall id <- s.o.late :: Alive(s.o.w, id) && HeldPassed(s, id)
  }

  lemma OrphansExecute(cfg: Config, s: State, fate: Fate, id: Id)
    requires OwnedInv(s) && OrphanInv(s) && OrphansStay(s)
    requires s.main.At? && s.main.pc < |cfg.program| && Execute(cfg, s, s.main.pc, fate, id).Some?
    ensures OrphansStay(Execute(cfg, s, s.main.pc, fate, id).value)
  {
    assert s.o.orphans == {};
  }

  /** A removal for a slot leaves every other resource alive. */
  lemma BodySpares(cfg: Config, s: State, fate: Fate, id: Id)
    requires s.t.once.Running? && Alive(s.o.w, id)
    requires forall slot :: s.t.once.stage == Remove(slot) && slot in s.handles ==> s.handles[slot] != id
    ensures Alive(Body(cfg, s, fate).o.w, id)
  {
    if s.t.once.stage.Remove? && s.t.once.stage.slot in s.handles {
      var slot := s.t.once.stage.slot;
      DeleteTouchesOne(s.o.w, cfg.KindOf(slot), s.handles[slot], fate, id);
    }
  }

  lemma OrphansBody(cfg: Config, s: State, fate: Fate)
    requires s.main != Ended(Bailed) && OrphansStay(s) && s.t.once.Running?
    ensures OrphansStay(Body(cfg, s, fate))
  {
    forall id | id in s.o.orphans {
      BodySpares(cfg, s, fate, id);
    }
  }

  lemma OrphansStep(cfg: Config, s: State, e: Event)
    requires EvidenceInv(s) && ProgramInv(cfg, s) && OwnedInv(s) && OrphanInv(s) && OrphansStay(s)
    requires Next(cfg, s, e).Some? && !e.Environment?
    ensures OrphansStay(Next(cfg, s, e).value)
  {
    var s' := Next(cfg, s, e).value;
    if Executes(cfg, s, e) {
      OrphansExecute(cfg, s, e.fate, e.id);
    } else if s.t.once.Running? && s'.t != s.t {
      OrphansBody(cfg, s, if e.MainStep? then e.fate else e.wfate);
    }
  }

  /** No instruction kills a resource or loses hold of one. */
  lemma ExecuteKeeps(cfg: Config, s: State, fate: Fate, id: Id, x: Id)
    requires s.main.At? && s.main.pc < |cfg.program| && Execute(cfg, s, s.main.pc, fate, id).Some?
    requires forall slot :: Assigns(cfg.program[s.main.pc], slot) ==> slot !in s.handles
    ensures var s' := Execute(cfg, s, s.main.pc, fate, id).value;
            (Alive(s.o.w, x) ==> Alive(s'.o.w, x)) && (HeldPassed(s, x) ==> HeldPassed(s', x))
  {
    var s' := Execute(cfg, s, s.main.pc, fate, id).value;
    assert s'.t == s.t;
    assert forall slot <- s.handles :: slot in s'.handles && s'.handles[slot] == s.handles[slot];
  }

  lemma LateExecute(cfg: Config, s: State, fate: Fate, id: Id)
    requires LateStays(s)
    requires s.main.At? && s.main.pc < |cfg.program| && Execute(cfg, s, s.main.pc, fate, id).Some?
    requires forall slot :: Assigns(cfg.program[s.main.pc], slot) ==> slot !in s.handles
    requires cfg.program[s.main.pc].op.Create? && cfg.program[s.main.pc].op.learned ==> s.t.once.Fresh?
    ensures LateStays(Execute(cfg, s, s.main.pc, fate, id).value)
  {
    var s' := Execute(cfg, s, s.main.pc, fate, id).value;
    forall x | x in s'.o.late ensures Alive(s'.o.w, x) && HeldPassed(s', x) {
      ExecuteKeeps(cfg, s, fate, id, x);
    }
  }

  lemma LateBody(cfg: Config, s: State, fate: Fate)
    requires OwnedInv(s) && LateStays(s) && s.t.once.Running?
    ensures LateStays(Body(cfg, s, fate))
  {
    forall id | id in s.o.late ensures Alive(Body(cfg, s, fate).o.w, id) && HeldPassed(Body(cfg, s, fate), id) {
      BodySpares(cfg, s, fate, id);
      PassedStays(cfg, s, fate, id);
    }
  }

  lemma PassedStays(cfg: Config, s: State, fate: Fate, id: Id)
    requires s.t.once.Running? && HeldPassed(s, id)
    ensures HeldPassed(Body(cfg, s, fate), id)
  {
  }

  /** A creation that must learn its id comes before the watchdog, and so before any teardown. */
  lemma LearnsInTime(cfg: Config, s: State)
    requires WellFormed(cfg) && ProgramInv(cfg, s) && s.main.At? && s.main.pc < |cfg.program|
    requires cfg.program[s.main.pc].op.Create? && cfg.program[s.main.pc].op.learned
    ensures s.t.once.Fresh?
  {
  }

  lemma LateInstruction(cfg: Config, s: State, fate: Fate, id: Id)
    requires WellFormed(cfg) && ProgramInv(cfg, s) && ProgressInv(cfg, s) && LateStays(s)
    requires s.main.At? && s.main.pc < |cfg.program| && Execute(cfg, s, s.main.pc, fate, id).Some?
    ensures LateStays(Execute(cfg, s, s.main.pc, fate, id).value)
  {
    forall slot | Assigns(cfg.program[s.main.pc], slot) ensures slot !in s.handles {
      SlotIsFree(cfg, s, slot);
    }
    if cfg.program[s.main.pc].op.Create? && cfg.program[s.main.pc].op.learned {
      LearnsInTime(cfg, s);
    }
    LateExecute(cfg, s, fate, id);
  }

  lemma LateStep(cfg: Config, s: State, e: Event)
    requires WellFormed(cfg) && ProgramInv(cfg, s) && ProgressInv(cfg, s) && OwnedInv(s) && LateStays(s)
    requires Next(cfg, s, e).Some? && !e.Environment?
    ensures LateStays(Next(cfg, s, e).value)
  {
    var s' := Next(cfg, s, e).value;
    if Executes(cfg, s, e) {
      LateInstruction(cfg, s, e.fate, e.id);
    } else if s.t.once.Running? && s'.t != s.t {
      LateBody(cfg, s, if e.MainStep? then e.fate else e.wfate);
    }
  }

  lemma {:induction false} QuietRunsKeepThem(cfg: Config, s0: State, events: seq<Event>)
    requires WellFormed(cfg) && Initial(s0) && Run(cfg, s0, events).Some? && Quiet(events)
    ensures var s := Run(cfg, s0, events).value; Inv(cfg, s) && OrphansStay(s) && LateStays(s)
  {
    if events == [] {
      InitialInv(cfg, s0);
    } else {
      var init, e := events[..|events| - 1], events[|events| - 1];
      QuietRunsKeepThem(cfg, s0, init);
      var s := Run(cfg, s0, init).value;
      StepKeepsInv(cfg, s, e);
      OrphansStep(cfg, s, e);
      LateStep(cfg, s, e);
    }
  }

  /** Whichever request of provisioning fails, and when the removals of the cleanup succeed: left over are exactly the
      creations whose reply was lost. In an environment that interferes, they are at most those. */
  lemma FailedProvisioningLeavesExactly(cfg: Config, s0: State, events: seq<Event>)
    requires WellFormed(cfg) && Initial(s0) && Run(cfg, s0, events).Some?
    requires var s := Run(cfg, s0, events).value;
             Ok(s.t.removals) && (s.main == Ended(Bailed) || s.main == Ended(Unprovisioned))
    ensures var s := Run(cfg, s0, events).value;
            && (forall id <- s.o.mine :: !Gone(s.o.w, id) ==> id in LostCreations(cfg, s0, events))
            && (Quiet(events) ==>
                  forall id :: (id in s.o.mine && !Gone(s.o.w, id)) <==> id in LostCreations(cfg, s0, events))
  {
    var s := Run(cfg, s0, events).value;
    assert Reachable(cfg, s);
    RecordsFollowEvents(cfg, s0, events);
    FailedProvisioningLeavesOrphansOnly(cfg, s);
    if Quiet(events) {
      QuietRunsKeepThem(cfg, s0, events);
    }
  }

  /** When the record says "destroyed": left over are exactly the creations that came too late. In an environment that
      interferes, they are at most those. */
  lemma DestroyedLeavesExactly(cfg: Config, s0: State, events: seq<Event>)
    requires WellFormed(cfg) && Initial(s0) && Run(cfg, s0, events).Some?
    requires Run(cfg, s0, events).value.written == Some(true)
    ensures var s := Run(cfg, s0, events).value;
            && (forall id <- s.o.mine :: !Gone(s.o.w, id) ==> id in LateCreations(cfg, s0, events))
            && (Quiet(events) ==>
                  forall id :: (id in s.o.mine && !Gone(s.o.w, id)) <==> id in LateCreations(cfg, s0, events))
  {
    var s := Run(cfg, s0, events).value;
    assert Reachable(cfg, s);
    RecordsFollowEvents(cfg, s0, events);
    DestroyedMeansGone(cfg, s);
    if Quiet(events) {
      QuietRunsKeepThem(cfg, s0, events);
    }
  }

  // ---- What "destroyed" depends on

  /** The event is the removal request of a teardown for the slot. */
  predicate Requests(s: State, e: Event, slot: Slot) {
    s.t.once.Running? && s.t.once.stage == Remove(slot) && slot in s.handles &&
    match s.t.once.holder
    case Main => e.MainStep? && s.main.InDestroy?
    case Watchdog => e.WatchStep? && s.watch.Destroying?
  }

  function FateOf(e: Event): Fate
    requires e.MainStep? || e.WatchStep?
  {
    if e.MainStep? then e.fate else e.wfate
  }

  /** The event is a removal request that does not succeed. */
  predicate FailsToRemove(cfg: Config, s: State, e: Event, slot: Slot) {
    Requests(s, e, slot) && !Succeeds(s.o.w, cfg.KindOf(slot), s.handles[slot], FateOf(e))
  }

  predicate SomeRemovalFails(cfg: Config, s0: State, events: seq<Event>)
    requires Run(cfg, s0, events).Some?
  {
    events != [] &&
    var init, e := events[..|events| - 1], events[|events| - 1];
    var s := Run(cfg, s0, init).value;
    SomeRemovalFails(cfg, s0, init) || FailsToRemove(cfg, s, e, First) || FailsToRemove(cfg, s, e, Second)
  }

  lemma BodyFails(cfg: Config, s: State, fate: Fate)
    requires s.t.once.Running?
    ensures var stage := s.t.once.stage;
      Body(cfg, s, fate).t.err <==>
        (s.t.err || (stage.Remove? && stage.slot in s.handles &&
                     !Succeeds(s.o.w, cfg.KindOf(stage.slot), s.handles[stage.slot], fate)))
  {
    if s.t.once.stage.Remove? && s.t.once.stage.slot in s.handles {
      var slot := s.t.once.stage.slot;
      DeleteMeans(s.o.w, cfg.KindOf(slot), s.handles[slot], fate);
    }
  }

  /** Only the thread that runs the teardown body can make an error. */
  lemma OnlyTheBodyFails(cfg: Config, s: State, e: Event)
    requires EvidenceInv(s) && Next(cfg, s, e).Some?
    requires forall slot :: !Requests(s, e, slot)
    ensures Next(cfg, s, e).value.t.err == s.t.err
  {
    assert !Requests(s, e, First) && !Requests(s, e, Second);
  }

  lemma OneStepFails(cfg: Config, s: State, e: Event)
    requires EvidenceInv(s) && Next(cfg, s, e).Some?
    ensures Next(cfg, s, e).value.t.err <==>
      s.t.err || FailsToRemove(cfg, s, e, First) || FailsToRemove(cfg, s, e, Second)
  {
    if Requests(s, e, First) || Requests(s, e, Second) {
      assert Next(cfg, s, e).value.t == Body(cfg, s, FateOf(e)).t;
      BodyFails(cfg, s, FateOf(e));
    } else {
      OnlyTheBodyFails(cfg, s, e);
    }
  }

  lemma {:induction false} ErrorsFollowEvents(cfg: Config, s0: State, events: seq<Event>)
    requires WellFormed(cfg) && Initial(s0) && Run(cfg, s0, events).Some?
    ensures Inv(cfg, Run(cfg, s0, events).value)
    ensures Run(cfg, s0, events).value.t.err <==> SomeRemovalFails(cfg, s0, events)
  {
    InitialInv(cfg, s0);
    if events != [] {
      var init, e := events[..|events| - 1], events[|events| - 1];
      ErrorsFollowEvents(cfg, s0, init);
      StepKeepsInv(cfg, Run(cfg, s0, init).value, e);
      OneStepFails(cfg, Run(cfg, s0, init).value, e);
    }
  }

  /** When teardown is over, the sandbox counts as destroyed exactly if no removal request failed, in every
      interleaving and every environment. */
  lemma DestroyedExactly(cfg: Config, s0: State, events: seq<Event>)
    requires WellFormed(cfg) && Initial(s0) && Run(cfg, s0, events).Some? && Run(cfg, s0, events).value.t.once.Done?
    ensures Run(cfg, s0, events).value.t.destroyed <==> !SomeRemovalFails(cfg, s0, events)
  {
    ErrorsFollowEvents(cfg, s0, events);
  }
}
