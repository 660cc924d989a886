/** What every interleaving of a drill keeps, and what it means for the evidence, the watchdog and the
    resources left behind. */
module DrillSafety {
  import opened Clock
  import opened Wrappers
  import opened Resources
  import opened DrillRun

  /** The slot an instruction fixes the id of. */
  predicate Assigns(instr: Instr, slot: Slot) {
    instr.op == Reserve(slot) || instr.op == Create(slot, true)
  }

  /** Program shape. The watchdog is armed once, as the last act of provisioning; a slot gets its id once;
      nothing is given up without a teardown once something may exist; and only a request that is followed by
      giving up may create a resource whose id it did not choose. */
  predicate WellFormed(cfg: Config) {
    && (forall i, j :: 0 <= i < j < |cfg.program| && cfg.program[i].op.Arm? ==>
          !cfg.program[j].op.Arm? && !cfg.program[j].onFail.Bail? && !cfg.program[j].onFail.Cleanup?)
    && (forall i, j, slot :: 0 <= i < j < |cfg.program| && Assigns(cfg.program[i], slot) ==>
          !Assigns(cfg.program[j], slot))
    && (forall i, j :: 0 <= i < j < |cfg.program| && cfg.program[i].op.Create? ==> !cfg.program[j].onFail.Bail?)
    && (forall i :: 0 <= i < |cfg.program| && cfg.program[i].op.Create? && cfg.program[i].op.learned ==>
          cfg.program[i].onFail.Bail? || cfg.program[i].onFail.Cleanup?)
  }

  /** A slot whose id is fixed before the watchdog runs, if ever. */
  predicate Early(cfg: Config, slot: Slot) {
    forall i, j :: 0 <= i < j < |cfg.program| && cfg.program[i].op.Arm? ==> !Assigns(cfg.program[j], slot)
  }

  /** Nothing is created once the watchdog runs. */
  predicate Settled(cfg: Config) {
    && Early(cfg, First) && Early(cfg, Second)
    && forall i, j :: 0 <= i < j < |cfg.program| && cfg.program[i].op.Arm? ==> !cfg.program[j].op.Create?
  }

  /** A slot whose object is created before the watchdog runs, if ever. */
  predicate MadeEarly(cfg: Config, slot: Slot) {
    forall i, j :: 0 <= i < j < |cfg.program| && cfg.program[i].op.Arm? ==>
      !(cfg.program[j].op.Create? && cfg.program[j].op.slot == slot)
  }

  /** Every object is created under a name fixed beforehand, and a failed creation is followed by a teardown. */
  predicate NamesFirst(cfg: Config) {
    forall i :: 0 <= i < |cfg.program| && cfg.program[i].op.Create? ==>
      !cfg.program[i].op.learned && !cfg.program[i].onFail.Bail?
  }

  predicate Ok(removals: seq<Removal>) {
    forall i :: 0 <= i < |removals| ==> removals[i].ok
  }

  /** Each slot is removed at most once, in order; the verdict is the conjunction of the outcomes, and it is
      published exactly when the body ends. */
  predicate TeardownInv(t: Teardown) {
    && |t.removals| <= 2
    && (|t.removals| == 2 ==> t.removals[0].slot.First? && t.removals[1].slot.Second?)
    && (forall i :: 0 <= i < |t.removals| ==> Passed(t.once, t.removals[i].slot))
    && t.err == !Ok(t.removals)
    && t.destroyed == (t.once.Done? && !t.err)
  }

  /** The record is written, and the drill ends, only after the body has run, with what the body found. */
  predicate EvidenceInv(s: State) {
    && (s.t.once.Running? && s.t.once.holder.Main? ==> s.main.InDestroy?)
    && (s.t.once.Running? && s.t.once.holder.Watchdog? ==> s.watch.Destroying?)
    && (s.main.Writing? ==> s.t.once.Done? && s.reported == s.t.destroyed)
    && (s.written.Some? ==> s.t.once.Done? && s.written.value == s.t.destroyed)
    && (s.written.Some? ==> s.main == InDestroy(Deferred) || s.main == Ended(Finished))
    && (s.main == Ended(Unprovisioned) || s.main == Ended(Finished) ==> s.t.once.Done?)
    && (s.main == Ended(Finished) ==> s.reported == s.t.destroyed)
  }

  /** Where the program stands, and that a failed provisioning leaves no watchdog. */
  predicate ProgramInv(cfg: Config, s: State) {
    && (s.main.At? ==> s.main.pc <= |cfg.program|)
    && (s.main.At? && s.watch != Off ==> exists i :: 0 <= i < s.main.pc && cfg.program[i].op.Arm?)
    && (s.main == InDestroy(FailedProvision) || s.main == Ended(Bailed) || s.main == Ended(Unprovisioned) ==>
          s.watch.Off?)
    && (s.watch.Off? && s.t.once.Running? ==> s.t.once.holder.Main?)
    && (s.main.At? && s.watch.Off? ==> s.t.once.Fresh?)
    && (s.main == Ended(Bailed) ==> s.t.once.Fresh?)
  }

  lemma TeardownBody(t: Teardown, present: bool, ok: bool)
    requires t.once.Running? && TeardownInv(t)
    ensures TeardownInv(Advance(t, present, ok))
  {
    var t' := Advance(t, present, ok);
    if t.once.stage.Remove? && present {
      assert t'.removals[|t.removals|].ok == ok;
      assert forall i :: 0 <= i < |t.removals| ==> t'.removals[i] == t.removals[i];
      if !ok {
        assert !Ok(t'.removals);
      }
    }
  }

  lemma TeardownStep(cfg: Config, s: State, e: Event)
    requires TeardownInv(s.t) && Next(cfg, s, e).Some?
    ensures TeardownInv(Next(cfg, s, e).value.t)
  {
    var s' := Next(cfg, s, e).value;
    if s.t.once.Running? && s'.t != s.t {
      forall present, ok ensures TeardownInv(Advance(s.t, present, ok)) {
        TeardownBody(s.t, present, ok);
      }
    }
  }

  lemma EvidenceExecute(cfg: Config, s: State, fate: Fate, id: Id)
    requires WellFormed(cfg) && EvidenceInv(s) && ProgramInv(cfg, s)
    requires s.main.At? && s.main.pc < |cfg.program| && Execute(cfg, s, s.main.pc, fate, id).Some?
    ensures EvidenceInv(Execute(cfg, s, s.main.pc, fate, id).value)
  {
  }

  lemma EvidenceStep(cfg: Config, s: State, e: Event)
    requires WellFormed(cfg) && TeardownInv(s.t) && EvidenceInv(s) && ProgramInv(cfg, s) && Next(cfg, s, e).Some?
    ensures EvidenceInv(Next(cfg, s, e).value)
  {
    if Executes(cfg, s, e) {
      EvidenceExecute(cfg, s, e.fate, e.id);
    }
  }

  lemma ProgramExecute(cfg: Config, s: State, fate: Fate, id: Id)
    requires WellFormed(cfg) && EvidenceInv(s) && ProgramInv(cfg, s)
    requires s.main.At? && s.main.pc < |cfg.program| && Execute(cfg, s, s.main.pc, fate, id).Some?
    ensures ProgramInv(cfg, Execute(cfg, s, s.main.pc, fate, id).value)
  {
  }

  lemma ProgramStep(cfg: Config, s: State, e: Event)
    requires WellFormed(cfg) && TeardownInv(s.t) && EvidenceInv(s) && ProgramInv(cfg, s) && Next(cfg, s, e).Some?
    ensures ProgramInv(cfg, Next(cfg, s, e).value)
  {
    if Executes(cfg, s, e) {
      ProgramExecute(cfg, s, e.fate, e.id);
    }
  }

  predicate Attempted(t: Teardown, slot: Slot) {
    exists i :: 0 <= i < |t.removals| && t.removals[i].slot == slot
  }

  predicate FailedToRemove(t: Teardown, slot: Slot) {
    exists i :: 0 <= i < |t.removals| && t.removals[i] == Removal(slot, false)
  }

  predicate AssignedBefore(cfg: Config, slot: Slot, pc: nat)
    requires pc <= |cfg.program|
  {
    exists i :: 0 <= i < pc && Assigns(cfg.program[i], slot)
  }

  predicate CreatedBefore(cfg: Config, pc: nat)
    requires pc <= |cfg.program|
  {
    exists i :: 0 <= i < pc && cfg.program[i].op.Create?
  }

  predicate Held(handles: map<Slot, Id>, id: Id) {
    (First in handles && handles[First] == id) || (Second in handles && handles[Second] == id)
  }

  /** Every id a handle holds is the drill's own, and only that handle's; every resource of the drill is held
      by a handle or an orphan. */
  predicate OwnedInv(s: State) {
    && (forall slot <- s.handles :: s.handles[slot] in s.o.mine)
    && (First in s.handles && Second in s.handles ==> s.handles[First] != s.handles[Second])
    && s.o.late <= s.o.mine
    && (forall id <- s.o.mine :: id in s.o.w ==> id in s.o.orphans || Held(s.handles, id))
  }

  predicate ProgressInv(cfg: Config, s: State) {
    s.main.At? && s.main.pc <= |cfg.program| ==>
      && (forall slot <- s.handles :: AssignedBefore(cfg, slot, s.main.pc))
      && (forall id <- s.o.mine :: id in s.o.w ==> CreatedBefore(cfg, s.main.pc))
  }

  /** Orphans exist only on the way out of a failed provisioning; late creations only beside a watchdog. */
  predicate OrphanInv(s: State) {
    && (s.main == Ended(Bailed) ==> forall id <- s.o.mine :: id in s.o.w ==> id in s.o.orphans)
    && (s.o.orphans != {} ==> s.main in {Ended(Bailed), InDestroy(FailedProvision), Ended(Unprovisioned)})
    && (s.o.late != {} ==> !s.watch.Off?)
  }

  /** Once teardown has passed a slot, its resource is gone, or its removal failed, or it was created later. */
  predicate Left(s: State, slot: Slot) {
    slot in s.handles && Passed(s.t.once, slot) ==>
      Gone(s.o.w, s.handles[slot]) || s.handles[slot] in s.o.late || FailedToRemove(s.t, slot)
  }

  predicate LeftInv(s: State) {
    Left(s, First) && Left(s, Second)
  }

  /** The removal of a slot fixed early is always attempted, whatever happened to the other slot. */
  predicate AttemptInv(cfg: Config, s: State) {
    forall slot <- s.handles :: Early(cfg, slot) && Passed(s.t.once, slot) ==> Attempted(s.t, slot)
  }

  /** Whatever the drill made and is still there carries its mark, and a lease that has a known end. */
  predicate Leased(cfg: Config, o: Outside, r: Resource) {
    && r.marked && r.created <= o.now
    && (r.kind == cfg.first || r.kind == cfg.second)
    && (r.kind.Container? || r.kind.Pod? || r.kind.Namespace? ==>
          r.expiresAt == Some(WholeSeconds(r.created + cfg.ttl)))
  }

  predicate LeaseInv(cfg: Config, o: Outside) {
    forall id <- o.mine :: id in o.w ==> Leased(cfg, o, o.w[id])
  }

  /** A removal request is nothing the environment could not do. */
  lemma DeleteRespects(o: Outside, kind: Kind, id: Id, fate: Fate)
    ensures Respects(o, Delete(o.w, kind, id, fate).0)
  {
  }

  lemma LeaseExecute(cfg: Config, s: State, pc: nat, fate: Fate, id: Id)
    requires LeaseInv(cfg, s.o) && pc < |cfg.program|
    requires Execute(cfg, s, pc, fate, id).Some?
    ensures LeaseInv(cfg, Execute(cfg, s, pc, fate, id).value.o)
  {
    if cfg.program[pc].op.Create? {
      assert Leased(cfg, s.o, NewResource(cfg, cfg.program[pc].op.slot, s.o.now, s.handles));
    }
  }

  lemma LeaseWeathers(cfg: Config, o: Outside, w: World)
    requires LeaseInv(cfg, o) && Respects(o, w)
    ensures LeaseInv(cfg, o.(w := w))
  {
  }

  predicate Executes(cfg: Config, s: State, e: Event) {
    e.MainStep? && s.main.At? && s.main.pc < |cfg.program|
  }

  /** Apart from the program's own instructions, no step does more than the environment may. */
  lemma OtherwiseWeathers(cfg: Config, s: State, e: Event)
    requires Next(cfg, s, e).Some? && !Executes(cfg, s, e)
    ensures var s' := Next(cfg, s, e).value;
            && s'.handles == s.handles && s'.o == s.o.(w := s'.o.w, now := s'.o.now)
            && Respects(s.o, s'.o.w) && s.o.now <= s'.o.now
  {
    if s.t.once.Running? && s.t.once.stage.Remove? && s.t.once.stage.slot in s.handles {
      var slot := s.t.once.stage.slot;
      forall fate {
        DeleteRespects(s.o, cfg.KindOf(slot), s.handles[slot], fate);
      }
    }
  }

  lemma LeaseStep(cfg: Config, s: State, e: Event)
    requires LeaseInv(cfg, s.o) && Next(cfg, s, e).Some?
    ensures LeaseInv(cfg, Next(cfg, s, e).value.o)
  {
    if Executes(cfg, s, e) {
      LeaseExecute(cfg, s, s.main.pc, e.fate, e.id);
    } else {
      OtherwiseWeathers(cfg, s, e);
      LeaseWeathers(cfg, s.o, Next(cfg, s, e).value.o.w);
    }
  }

  /** An instruction that fixes an id fixes one that was not fixed before. */
  lemma SlotIsFree(cfg: Config, s: State, slot: Slot)
    requires s.main.At? && s.main.pc < |cfg.program| && WellFormed(cfg) && ProgressInv(cfg, s)
    requires Assigns(cfg.program[s.main.pc], slot)
    ensures slot !in s.handles
  {
  }

  lemma OwnedExecute(cfg: Config, s: State, fate: Fate, id: Id)
    requires s.main.At? && s.main.pc < |cfg.program| && OwnedInv(s) && Execute(cfg, s, s.main.pc, fate, id).Some?
    requires forall slot :: Assigns(cfg.program[s.main.pc], slot) ==> slot !in s.handles
    ensures OwnedInv(Execute(cfg, s, s.main.pc, fate, id).value)
  {
    var op, s' := cfg.program[s.main.pc].op, Execute(cfg, s, s.main.pc, fate, id).value;
    if op.Reserve? || op.Create? {
      var target := if op.Create? && !op.learned then s.handles[op.slot] else id;
      forall x {
        HeldStays(s.handles, op.slot, target, x);
      }
      assert s'.o.mine == s.o.mine || s'.o.mine == s.o.mine + {target};
      assert s'.handles == s.handles || s'.handles == s.handles[op.slot := target];
    } else {
      assert s'.o.mine == s.o.mine && s'.handles == s.handles && s'.o.w.Keys == s.o.w.Keys;
    }
  }

  lemma HeldStays(handles: map<Slot, Id>, slot: Slot, target: Id, id: Id)
    requires slot !in handles || handles[slot] == target
    ensures Held(handles[slot := target], id) <==> Held(handles, id) || id == target
  {
  }

  lemma OwnedStep(cfg: Config, s: State, e: Event)
    requires WellFormed(cfg) && ProgressInv(cfg, s) && OwnedInv(s) && Next(cfg, s, e).Some?
    ensures OwnedInv(Next(cfg, s, e).value)
  {
    if Executes(cfg, s, e) {
      forall slot | Assigns(cfg.program[s.main.pc], slot) {
        SlotIsFree(cfg, s, slot);
      }
      OwnedExecute(cfg, s, e.fate, e.id);
    } else {
      OtherwiseWeathers(cfg, s, e);
    }
  }

  /** An id is in a handle only by the instruction that fixes it. */
  lemma HandlesGrow(cfg: Config, s: State, fate: Fate, id: Id, slot: Slot)
    requires s.main.At? && s.main.pc < |cfg.program| && Execute(cfg, s, s.main.pc, fate, id).Some?
    ensures slot in Execute(cfg, s, s.main.pc, fate, id).value.handles ==>
      slot in s.handles || Assigns(cfg.program[s.main.pc], slot)
  {
  }

  /** A resource of the drill is there only by an instruction that creates one. */
  lemma CreationsGrow(cfg: Config, s: State, fate: Fate, id: Id, x: Id)
    requires s.main.At? && s.main.pc < |cfg.program| && Execute(cfg, s, s.main.pc, fate, id).Some?
    ensures var o := Execute(cfg, s, s.main.pc, fate, id).value.o;
            x in o.mine && x in o.w ==> (x in s.o.mine && x in s.o.w) || cfg.program[s.main.pc].op.Create?
  {
  }

  lemma ProgressExecute(cfg: Config, s: State, fate: Fate, id: Id)
    requires s.main.At? && s.main.pc < |cfg.program| && ProgressInv(cfg, s)
    requires Execute(cfg, s, s.main.pc, fate, id).Some?
    ensures ProgressInv(cfg, Execute(cfg, s, s.main.pc, fate, id).value)
  {
    var pc, s' := s.main.pc, Execute(cfg, s, s.main.pc, fate, id).value;
    if s'.main.At? {
      assert s'.main.pc == pc + 1;
      forall slot | slot in s'.handles ensures AssignedBefore(cfg, slot, pc + 1) {
        HandlesGrow(cfg, s, fate, id, slot);
        assert AssignedBefore(cfg, slot, pc) || Assigns(cfg.program[pc], slot);
      }
      forall x | x in s'.o.mine && x in s'.o.w ensures CreatedBefore(cfg, pc + 1) {
        CreationsGrow(cfg, s, fate, id, x);
        assert CreatedBefore(cfg, pc) || cfg.program[pc].op.Create?;
      }
    }
  }

  lemma ProgressStep(cfg: Config, s: State, e: Event)
    requires ProgramInv(cfg, s) && ProgressInv(cfg, s) && Next(cfg, s, e).Some?
    ensures ProgressInv(cfg, Next(cfg, s, e).value)
  {
    if Executes(cfg, s, e) {
      ProgressExecute(cfg, s, e.fate, e.id);
    } else {
      OtherwiseWeathers(cfg, s, e);
    }
  }

  lemma OrphanExecute(cfg: Config, s: State, fate: Fate, id: Id)
    requires s.main.At? && s.main.pc < |cfg.program| && WellFormed(cfg)
    requires ProgramInv(cfg, s) && ProgressInv(cfg, s) && OrphanInv(s) && Execute(cfg, s, s.main.pc, fate, id).Some?
    ensures OrphanInv(Execute(cfg, s, s.main.pc, fate, id).value)
  {
  }

  lemma OrphanStep(cfg: Config, s: State, e: Event)
    requires WellFormed(cfg) && EvidenceInv(s) && ProgramInv(cfg, s) && ProgressInv(cfg, s) && OrphanInv(s)
    requires Next(cfg, s, e).Some?
    ensures OrphanInv(Next(cfg, s, e).value)
  {
    if Executes(cfg, s, e) {
      OrphanExecute(cfg, s, e.fate, e.id);
    } else {
      OtherwiseWeathers(cfg, s, e);
    }
  }

  lemma HandleKept(cfg: Config, s: State, fate: Fate, id: Id, slot: Slot)
    requires s.main.At? && s.main.pc < |cfg.program| && Execute(cfg, s, s.main.pc, fate, id).Some?
    requires Assigns(cfg.program[s.main.pc], slot) ==> slot !in s.handles
    ensures var s' := Execute(cfg, s, s.main.pc, fate, id).value;
      && s'.t == s.t && s.o.late <= s'.o.late
      && (slot in s.handles ==> slot in s'.handles && s'.handles[slot] == s.handles[slot])
  {
  }

  lemma LeftExecute(cfg: Config, s: State, fate: Fate, id: Id, slot: Slot)
    requires s.main.At? && s.main.pc < |cfg.program|
    requires Assigns(cfg.program[s.main.pc], slot) ==> slot !in s.handles
    requires OwnedInv(s) && Left(s, slot)
    requires Execute(cfg, s, s.main.pc, fate, id).Some?
    ensures Left(Execute(cfg, s, s.main.pc, fate, id).value, slot)
  {
    HandleKept(cfg, s, fate, id, slot);
  }

  lemma FailuresStay(t: Teardown, present: bool, ok: bool, slot: Slot)
    requires t.once.Running?
    ensures FailedToRemove(t, slot) ==> FailedToRemove(Advance(t, present, ok), slot)
    ensures t.once.stage == Remove(slot) && present && !ok ==> FailedToRemove(Advance(t, present, ok), slot)
  {
    var t' := Advance(t, present, ok);
    assert forall i :: 0 <= i < |t.removals| ==> t'.removals[i] == t.removals[i];
    if t.once.stage == Remove(slot) && present && !ok {
      assert t'.removals[|t.removals|] == Removal(slot, false);
    }
  }

  lemma LeftBody(cfg: Config, s: State, fate: Fate, slot: Slot)
    requires s.t.once.Running? && OwnedInv(s) && Left(s, slot)
    ensures Left(Body(cfg, s, fate), slot)
  {
    forall present, ok {
      FailuresStay(s.t, present, ok, slot);
    }
    var s' := Body(cfg, s, fate);
    if s.t.once.stage == Remove(slot) {
      assert slot in s.handles ==> Gone(s'.o.w, s.handles[slot]) || FailedToRemove(s'.t, slot);
    } else {
      assert Passed(s'.t.once, slot) ==> Passed(s.t.once, slot);
      if s.t.once.stage.Remove? && s.t.once.stage.slot in s.handles {
        DeleteRespects(s.o, cfg.KindOf(s.t.once.stage.slot), s.handles[s.t.once.stage.slot], fate);
      }
    }
  }

  lemma LeftStep(cfg: Config, s: State, e: Event, slot: Slot)
    requires WellFormed(cfg) && ProgressInv(cfg, s) && OwnedInv(s) && Left(s, slot) && Next(cfg, s, e).Some?
    ensures Left(Next(cfg, s, e).value, slot)
  {
    if Executes(cfg, s, e) {
      if Assigns(cfg.program[s.main.pc], slot) {
        SlotIsFree(cfg, s, slot);
      }
      LeftExecute(cfg, s, e.fate, e.id, slot);
    } else if s.t.once.Running? && Next(cfg, s, e).value.t != s.t {
      forall fate ensures Left(Body(cfg, s, fate), slot) {
        LeftBody(cfg, s, fate, slot);
      }
    } else {
      OtherwiseWeathers(cfg, s, e);
    }
  }

  lemma AttemptBody(cfg: Config, s: State, fate: Fate)
    requires s.t.once.Running? && AttemptInv(cfg, s)
    ensures AttemptInv(cfg, Body(cfg, s, fate))
  {
    var s' := Body(cfg, s, fate);
    assert forall i :: 0 <= i < |s.t.removals| ==> s'.t.removals[i] == s.t.removals[i];
    if s.t.once.stage.Remove? && s.t.once.stage.slot in s.handles {
      assert s'.t.removals[|s.t.removals|].slot == s.t.once.stage.slot;
    }
  }

  lemma AttemptExecute(cfg: Config, s: State, fate: Fate, id: Id)
    requires ProgramInv(cfg, s) && AttemptInv(cfg, s)
    requires s.main.At? && s.main.pc < |cfg.program| && Execute(cfg, s, s.main.pc, fate, id).Some?
    ensures AttemptInv(cfg, Execute(cfg, s, s.main.pc, fate, id).value)
  {
    forall slot {
      HandlesGrow(cfg, s, fate, id, slot);
    }
  }

  lemma AttemptStep(cfg: Config, s: State, e: Event)
    requires EvidenceInv(s) && ProgramInv(cfg, s) && AttemptInv(cfg, s) && Next(cfg, s, e).Some?
    ensures AttemptInv(cfg, Next(cfg, s, e).value)
  {
    if s.t.once.Running? && Next(cfg, s, e).value.t != s.t {
      forall fate ensures AttemptInv(cfg, Body(cfg, s, fate)) {
        AttemptBody(cfg, s, fate);
      }
    } else if Executes(cfg, s, e) {
      AttemptExecute(cfg, s, e.fate, e.id);
    } else {
      OtherwiseWeathers(cfg, s, e);
    }
  }

  /** What the stricter program shapes add. */
  predicate ShapeInv(cfg: Config, s: State) {
    && (Settled(cfg) ==> s.o.late == {})
    && (NamesFirst(cfg) ==> s.o.orphans == {})
  }

  lemma ShapeStep(cfg: Config, s: State, e: Event)
    requires ProgramInv(cfg, s) && ShapeInv(cfg, s) && Next(cfg, s, e).Some?
    ensures ShapeInv(cfg, Next(cfg, s, e).value)
  {
    if !Executes(cfg, s, e) {
      OtherwiseWeathers(cfg, s, e);
    }
  }

  /** A resource made before the watchdog ran was not made late. */
  predicate Timely(cfg: Config, s: State, slot: Slot) {
    MadeEarly(cfg, slot) && slot in s.handles ==> s.handles[slot] !in s.o.late
  }

  lemma TimelyStep(cfg: Config, s: State, e: Event, slot: Slot)
    requires ProgramInv(cfg, s) && OwnedInv(s) && Timely(cfg, s, slot) && Next(cfg, s, e).Some?
    requires Executes(cfg, s, e) && Assigns(cfg.program[s.main.pc], slot) ==> slot !in s.handles
    ensures Timely(cfg, Next(cfg, s, e).value, slot)
  {
    if !Executes(cfg, s, e) {
      OtherwiseWeathers(cfg, s, e);
    } else if cfg.program[s.main.pc].op.Create? && cfg.program[s.main.pc].op.slot == slot && MadeEarly(cfg, slot) {
      assert s.t.once.Fresh?;
    }
  }

  lemma StaysTimely(cfg: Config, s: State, e: Event, slot: Slot)
    requires WellFormed(cfg) && ProgramInv(cfg, s) && ProgressInv(cfg, s) && OwnedInv(s) && Timely(cfg, s, slot)
    requires Next(cfg, s, e).Some?
    ensures Timely(cfg, Next(cfg, s, e).value, slot)
  {
    if Executes(cfg, s, e) && Assigns(cfg.program[s.main.pc], slot) {
      SlotIsFree(cfg, s, slot);
    }
    TimelyStep(cfg, s, e, slot);
  }

  predicate Inv(cfg: Config, s: State) {
    && TeardownInv(s.t) && EvidenceInv(s) && ProgramInv(cfg, s) && OwnedInv(s) && ProgressInv(cfg, s) && OrphanInv(s)
    && LeftInv(s) && AttemptInv(cfg, s) && LeaseInv(cfg, s.o) && ShapeInv(cfg, s)
    && Timely(cfg, s, First) && Timely(cfg, s, Second)
  }

  lemma StepKeepsInv(cfg: Config, s: State, e: Event)
    requires WellFormed(cfg) && Inv(cfg, s) && Next(cfg, s, e).Some?
    ensures Inv(cfg, Next(cfg, s, e).value)
  {
    TeardownStep(cfg, s, e);
    EvidenceStep(cfg, s, e);
    ProgramStep(cfg, s, e);
    OwnedStep(cfg, s, e);
    ProgressStep(cfg, s, e);
    OrphanStep(cfg, s, e);
    LeftStep(cfg, s, e, First);
    LeftStep(cfg, s, e, Second);
    AttemptStep(cfg, s, e);
    LeaseStep(cfg, s, e);
    ShapeStep(cfg, s, e);
    StaysTimely(cfg, s, e, First);
    StaysTimely(cfg, s, e, Second);
  }

  lemma {:induction false} RunKeepsInv(cfg: Config, s: State, events: seq<Event>)
    requires WellFormed(cfg) && Inv(cfg, s) && Run(cfg, s, events).Some?
    ensures Inv(cfg, Run(cfg, s, events).value)
  {
    if events != [] {
      var init := events[..|events| - 1];
      RunKeepsInv(cfg, s, init);
      StepKeepsInv(cfg, Run(cfg, s, init).value, events[|events| - 1]);
    }
  }

  lemma InitialInv(cfg: Config, s: State)
    requires Initial(s)
    ensures Inv(cfg, s)
  {
  }

  /** A state that some interleaving, with some faults and some environment, leads to. A crash is the end of
      both threads at any such state. */
  ghost predicate Reachable(cfg: Config, s: State) {
    exists s0, events :: Initial(s0) && Run(cfg, s0, events) == Some(s)
  }

  lemma ReachableInv(cfg: Config, s: State)
    requires WellFormed(cfg) && Reachable(cfg, s)
    ensures Inv(cfg, s)
  {
    var s0, events :| Initial(s0) && Run(cfg, s0, events) == Some(s);
    InitialInv(cfg, s0);
    RunKeepsInv(cfg, s0, events);
  }

  /** In every interleaving each removal is requested at most once; and when teardown is over, every slot
      fixed before the watchdog ran was tried, the second even when the first failed. */
  lemma RemovalsAreIssuedOnce(cfg: Config, s: State)
    requires WellFormed(cfg) && Reachable(cfg, s)
    ensures forall i, j :: 0 <= i < j < |s.t.removals| ==> s.t.removals[i].slot != s.t.removals[j].slot
    ensures s.t.once.Done? ==> forall slot <- s.handles :: Early(cfg, slot) ==> Attempted(s.t, slot)
    ensures s.t.destroyed ==> s.t.once.Done? && Ok(s.t.removals)
  {
    ReachableInv(cfg, s);
  }

  lemma VerdictStep(cfg: Config, s: State, e: Event)
    requires EvidenceInv(s) && s.t.once.Done? && Next(cfg, s, e).Some?
    ensures var s' := Next(cfg, s, e).value;
            s'.t.(cancelled := s.t.cancelled) == s.t && (s.written.Some? ==> s'.written == s.written)
  {
  }

  /** Teardown is final. */
  lemma {:induction false} VerdictIsFinal(cfg: Config, s: State, events: seq<Event>)
    requires WellFormed(cfg) && Inv(cfg, s) && s.t.once.Done? && Run(cfg, s, events).Some?
    ensures var s' := Run(cfg, s, events).value;
            && s'.t.(cancelled := s.t.cancelled) == s.t
            && (s.written.Some? ==> s'.written == s.written)
  {
    if events != [] {
      var init := events[..|events| - 1];
      VerdictIsFinal(cfg, s, init);
      RunKeepsInv(cfg, s, init);
      VerdictStep(cfg, Run(cfg, s, init).value, events[|events| - 1]);
    }
  }

  /** The record is written after teardown, says what teardown found, and stays true: whatever happens after
      it is written, the field in memory agrees with it, and it claims success exactly when every removal
      that was ever requested succeeded. */
  lemma EvidenceTellsTheFate(cfg: Config, s: State, later: seq<Event>)
    requires WellFormed(cfg) && Reachable(cfg, s) && s.written.Some? && Run(cfg, s, later).Some?
    ensures var s' := Run(cfg, s, later).value;
            && s'.written == s.written && s'.t.once.Done?
            && s.written.value == s'.t.destroyed == Ok(s'.t.removals)
            && (s'.main == Ended(Finished) ==> s'.reported == s.written.value)
  {
    ReachableInv(cfg, s);
    VerdictIsFinal(cfg, s, later);
    RunKeepsInv(cfg, s, later);
  }

  /** A record that claims the sandbox destroyed is right about every resource the drill ever made, now and
      from then on, except one created after teardown had passed it. Only a program that creates something
      beside the running watchdog can have such a resource. */
  lemma DestroyedMeansGone(cfg: Config, s: State)
    requires WellFormed(cfg) && Reachable(cfg, s) && s.written == Some(true)
    ensures forall id <- s.o.mine :: Gone(s.o.w, id) || id in s.o.late
    ensures forall slot <- s.handles :: MadeEarly(cfg, slot) ==> Gone(s.o.w, s.handles[slot])
    ensures Settled(cfg) ==> forall id <- s.o.mine :: Gone(s.o.w, id)
  {
    ReachableInv(cfg, s);
    assert !FailedToRemove(s.t, First) && !FailedToRemove(s.t, Second);
  }

  /** Whichever request of provisioning fails, no watchdog is left and no evidence is written; and when the
      removals succeed, nothing is left but a resource the server made without the drill learning of it. A
      program that fixes every name beforehand has none of those. */
  lemma FailedProvisioningLeavesOrphansOnly(cfg: Config, s: State)
    requires WellFormed(cfg) && Reachable(cfg, s)
    requires s.main == Ended(Bailed) || s.main == Ended(Unprovisioned)
    ensures s.watch.Off? && s.written.None?
    ensures Ok(s.t.removals) ==> forall id <- s.o.mine :: Gone(s.o.w, id) || id in s.o.orphans
    ensures Ok(s.t.removals) && NamesFirst(cfg) ==> forall id <- s.o.mine :: Gone(s.o.w, id)
  {
    ReachableInv(cfg, s);
    if Ok(s.t.removals) {
      assert !FailedToRemove(s.t, First) && !FailedToRemove(s.t, Second);
    }
  }

  /** Teardown never deadlocks: while the main thread waits for it, one of the two threads can go on. */
  lemma TeardownGoesOn(cfg: Config, s: State)
    requires WellFormed(cfg) && Reachable(cfg, s) && s.main.InDestroy?
    ensures Next(cfg, s, MainStep(Granted, 0)).Some? || Next(cfg, s, WatchStep(false, Granted)).Some?
  {
    ReachableInv(cfg, s);
  }

  lemma DeleteTouchesOne(w: World, kind: Kind, target: Id, fate: Fate, id: Id)
    requires id != target
    ensures var w' := Delete(w, kind, target, fate).0;
            (id in w' <==> id in w) && (id in w' ==> w'[id] == w[id])
  {
  }

  lemma BodyTouchesMine(cfg: Config, s: State, fate: Fate, id: Id)
    requires s.t.once.Running? && OwnedInv(s) && id !in s.o.mine
    ensures var w := Body(cfg, s, fate).o.w;
            (id in w <==> id in s.o.w) && (id in w ==> w[id] == s.o.w[id])
  {
    if s.t.once.stage.Remove? && s.t.once.stage.slot in s.handles {
      var slot := s.t.once.stage.slot;
      DeleteTouchesOne(s.o.w, cfg.KindOf(slot), s.handles[slot], fate, id);
    }
  }

  lemma ExecuteTouchesMine(cfg: Config, s: State, fate: Fate, id: Id, other: Id)
    requires s.main.At? && s.main.pc < |cfg.program| && OwnedInv(s) && Execute(cfg, s, s.main.pc, fate, id).Some?
    requires other !in Execute(cfg, s, s.main.pc, fate, id).value.o.mine
    ensures var w := Execute(cfg, s, s.main.pc, fate, id).value.o.w;
            (other in w <==> other in s.o.w) && (other in w ==> w[other] == s.o.w[other])
  {
  }

  /** Neither thread ever changes a resource that is not the drill's own. */
  lemma OthersAreUntouched(cfg: Config, s: State, e: Event, id: Id)
    requires WellFormed(cfg) && Reachable(cfg, s) && !e.Environment? && Next(cfg, s, e).Some?
    requires id !in Next(cfg, s, e).value.o.mine
    ensures var w := Next(cfg, s, e).value.o.w;
            (id in w <==> id in s.o.w) && (id in w ==> w[id] == s.o.w[id])
  {
    assert OwnedInv(s) by {
      ReachableInv(cfg, s);
    }
    if Executes(cfg, s, e) {
      ExecuteTouchesMine(cfg, s, e.fate, e.id, id);
    } else if s.t.once.Running? && Next(cfg, s, e).value.t != s.t {
      forall fate | id !in s.o.mine {
        BodyTouchesMine(cfg, s, fate, id);
      }
    }
  }
}
