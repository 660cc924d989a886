/** One drill from provisioning to its written evidence, as the interleaved steps of two threads: the main
    thread, and the TTL watchdog. Both tear down through one sync.Once. Everything else that touches the
    Docker daemon or the API server, other drills, sweeps and people, is the environment. */
module DrillRun {
  import opened Clock
  import opened Wrappers
  import opened Resources

  /** A sandbox remembers at most two resources. Teardown removes `First`, then `Second`. */
  datatype Slot = First | Second

  /** One request of the main thread. `Reserve` fixes a name before the object exists; `Create` makes the
      object, and when `learned` learns its id from the reply. */
  datatype Op = Call | Reserve(slot: Slot) | Create(slot: Slot, learned: bool) | Start(slot: Slot) | Arm

  /** What the main thread does when a request fails: return without a sandbox; destroy what there is and
      return without a sandbox; leave through the deferred teardown; or carry on. */
  datatype OnFail = Bail | Cleanup | Abort | Proceed

  datatype Instr = Instr(op: Op, onFail: OnFail)

  datatype Config = Config(first: Kind, second: Kind, ttl: Time, program: seq<Instr>) {
    function KindOf(slot: Slot): Kind {
      if slot.First? then first else second
    }
  }

  datatype Thread = Main | Watchdog
  datatype Return = FailedProvision | BeforeEvidence | Deferred
  datatype Stage = Cancel | Remove(slot: Slot) | Store
  datatype Once = Fresh | Running(holder: Thread, stage: Stage) | Done
  datatype MainPc = At(pc: nat) | InDestroy(after: Return) | Writing | Ended(result: Result)
  datatype Result = Bailed | Unprovisioned | Finished
  datatype WatchPc = Off | Armed | Destroying | Exited

  /** One removal request of a teardown, and whether it succeeded. */
  datatype Removal = Removal(slot: Slot, ok: bool)

  /** The sandbox's teardown fields, guarded by its sync.Once. */
  datatype Teardown = Teardown(once: Once, cancelled: bool, err: bool, destroyed: bool, removals: seq<Removal>)

  /** The outside world. `mine` collects every id this drill ever used, `orphans` those it created without
      learning so, `late` those created when teardown had already passed their slot. */
  datatype Outside = Outside(w: World, now: Time, mine: set<Id>, orphans: set<Id>, late: set<Id>)

  /** `reported` is the evidence record's field in memory, `written` the one in the written record. */
  datatype State = State(o: Outside, handles: map<Slot, Id>, main: MainPc, watch: WatchPc, t: Teardown,
                         reported: bool, written: Option<bool>)

  datatype Event =
    | MainStep(fate: Fate, id: Id)
    | WatchStep(timer: bool, wfate: Fate)
    | Tick(now: Time)
    | Environment(w: World)

  predicate Initial(s: State) {
    && s.o.mine == {} && s.o.orphans == {} && s.o.late == {} && s.handles == map[]
    && s.main == At(0) && s.watch == Off && s.t == Teardown(Fresh, false, false, false, [])
    && !s.reported && s.written == None
  }

  /** The instruction failed. */
  function Fail(onFail: OnFail, pc: nat): MainPc {
    match onFail
    case Bail => Ended(Bailed)
    case Cleanup => InDestroy(FailedProvision)
    case Abort => InDestroy(Deferred)
    case Proceed => At(pc + 1)
  }

  function After(instr: Instr, fate: Fate, pc: nat): MainPc {
    if fate.Granted? then At(pc + 1) else Fail(instr.onFail, pc)
  }

  /** Whether teardown will no longer look at a slot. */
  predicate Passed(once: Once, slot: Slot) {
    match once
    case Fresh => false
    case Running(_, Cancel) => false
    case Running(_, Remove(First)) => false
    case Running(_, Remove(Second)) => slot.First?
    case Running(_, Store) => true
    case Done => true
  }

  function NewResource(cfg: Config, slot: Slot, now: Time, handles: map<Slot, Id>): Resource {
    var kind := cfg.KindOf(slot);
    var lease := kind.Container? || kind.Pod? || kind.Namespace?;
    Resource(kind, true, if lease then Some(WholeSeconds(now + cfg.ttl)) else None, now,
             if kind.Container? && Second in handles then Some(handles[Second]) else None, false, false)
  }

  /** A creation request that reached the server, acknowledged or not. */
  function Make(o: Outside, target: Id, r: Resource, orphan: bool, late: bool): Outside {
    Outside(o.w[target := r], o.now, o.mine + {target},
            if orphan then o.orphans + {target} else o.orphans, if late then o.late + {target} else o.late)
  }

  predicate Unused(o: Outside, id: Id) {
    id !in o.w && id !in o.mine
  }

  /** One instruction of the program. */
  function Execute(cfg: Config, s: State, pc: nat, fate: Fate, id: Id): Option<State>
    requires pc < |cfg.program|
  {
    var instr := cfg.program[pc];
    var next := s.(main := After(instr, fate, pc));
    match instr.op
    case Call => Some(next)
    case Reserve(slot) =>
      if !Unused(s.o, id) then None
      else Some(s.(handles := s.handles[slot := id], o := s.o.(mine := s.o.mine + {id}), main := At(pc + 1)))
    case Create(slot, learned) =>
      if (if learned then !Unused(s.o, id) else slot !in s.handles) then None
      else if fate.Refused? then Some(next)
      else
        var target := if learned then id else s.handles[slot];
        var orphan := fate.Lost? && (learned || instr.onFail.Bail?);
        var o := Make(s.o, target, NewResource(cfg, slot, s.o.now, s.handles), orphan, Passed(s.t.once, slot));
        Some(next.(o := o, handles := if fate.Granted? then s.handles[slot := target] else s.handles))
    case Start(slot) =>
      if fate.Refused? || slot !in s.handles || s.handles[slot] !in s.o.w then Some(s.(main := Fail(instr.onFail, pc)))
      else
        var c := s.handles[slot];
        Some(next.(o := s.o.(w := s.o.w[c := s.o.w[c].(running := true)])))
    case Arm =>
      Some(s.(watch := Armed, main := At(pc + 1)))
  }

  /** One step of the body that sync.Once guards: `present` tells whether the slot under removal has an id,
      `ok` how its removal request ended. */
  function Advance(t: Teardown, present: bool, ok: bool): Teardown
    requires t.once.Running?
  {
    match t.once.stage
    case Cancel => t.(cancelled := true, once := Running(t.once.holder, Remove(First)))
    case Remove(slot) =>
      var t1 := t.(once := Running(t.once.holder, if slot.First? then Remove(Second) else Store));
      if present then t1.(removals := t.removals + [Removal(slot, ok)], err := t.err || !ok) else t1
    case Store => t.(destroyed := !t.err, once := Done)
  }

  /** The same step, with the removal request it makes. */
  function Body(cfg: Config, s: State, fate: Fate): State
    requires s.t.once.Running?
  {
    if s.t.once.stage.Remove? && s.t.once.stage.slot in s.handles then
      var slot := s.t.once.stage.slot;
      var (w, ok) := Delete(s.o.w, cfg.KindOf(slot), s.handles[slot], fate);
      s.(o := s.o.(w := w), t := Advance(s.t, true, ok))
    else s.(t := Advance(s.t, false, true))
  }

  /** A call of Destroy: enter the body, run it, or wait for the other thread. None: blocked, or returned. */
  function CallDestroy(cfg: Config, s: State, thread: Thread, fate: Fate): Option<State> {
    match s.t.once
    case Fresh => Some(s.(t := s.t.(once := Running(thread, Cancel))))
    case Running(holder, _) => if holder == thread then Some(Body(cfg, s, fate)) else None
    case Done => None
  }

  function StepMain(cfg: Config, s: State, fate: Fate, id: Id): Option<State> {
    match s.main
    case At(pc) =>
      if pc < |cfg.program| then Execute(cfg, s, pc, fate, id)
      else Some(s.(main := InDestroy(BeforeEvidence)))
    case InDestroy(after) =>
      if !s.t.once.Done? then CallDestroy(cfg, s, Main, fate)
      else Some(match after
        case FailedProvision => s.(main := Ended(Unprovisioned))
        case BeforeEvidence => s.(reported := s.t.destroyed, main := Writing)
        case Deferred => s.(reported := s.t.destroyed, main := Ended(Finished)))
    case Writing =>
      Some(s.(written := if fate.Granted? then Some(s.reported) else None, main := InDestroy(Deferred)))
    case Ended(_) => None
  }

  function StepWatchdog(cfg: Config, s: State, timer: bool, fate: Fate): Option<State> {
    match s.watch
    case Armed =>
      if timer then Some(s.(watch := Destroying))
      else if s.t.cancelled then Some(s.(watch := Exited))
      else None
    case Destroying =>
      if s.t.once.Done? then Some(s.(watch := Exited)) else CallDestroy(cfg, s, Watchdog, fate)
    case _ => None
  }

  /** All the environment can do to a drill's own resource is stop it, begin to terminate it or remove it. */
  predicate Weathered(r: Resource, r': Resource) {
    && r' == r.(running := r'.running, terminating := r'.terminating)
    && (r'.running ==> r.running) && (r.terminating ==> r'.terminating)
  }

  /** Names and ids are unique: the environment never makes a resource under one of the drill's. */
  predicate Respects(o: Outside, w: World) {
    forall id <- o.mine :: id in w ==> id in o.w && Weathered(o.w[id], w[id])
  }

  function Next(cfg: Config, s: State, e: Event): Option<State> {
    match e
    case MainStep(fate, id) => StepMain(cfg, s, fate, id)
    case WatchStep(timer, fate) => StepWatchdog(cfg, s, timer, fate)
    case Tick(now) => if s.o.now <= now then Some(s.(o := s.o.(now := now))) else None
    case Environment(w) => if Respects(s.o, w) then Some(s.(o := s.o.(w := w))) else None
  }

  /** The state after a whole run; None when some step was not possible. */
  function Run(cfg: Config, s: State, events: seq<Event>): Option<State> {
    if events == [] then Some(s)
    else
      var before :- Run(cfg, s, events[..|events| - 1]);
      Next(cfg, before, events[|events| - 1])
  }
}
