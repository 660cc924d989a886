/** The operator's scheduling loop for one RecoveryDrill object. */
module Reconcile {
  import opened Clock
  import opened Wrappers
  import opened Status
  import Decimal

  const RETRY_DELAY: Time := 300 * SECOND

  /** What the spec asks for. A cron schedule is its next-tick function; `None` is the zero time that the cron
      library returns for a schedule that never ticks. */
  datatype Plan = Malformed(problem: string) | RunOnce | BadSchedule(problem: string) | Cron(next: Time -> Option<Time>)

  /** The object as one read sees it. */
  datatype Drill = Drill(generation: nat, created: Time, plan: Plan, status: Fields)

  datatype Measured = Measured(restoreSeconds: real, ageSeconds: real, rtoMet: bool, rpoMet: bool)

  /** How the drill ended: it could not execute, or it did, with a verdict. The evidence may be there either way. */
  datatype Outcome =
    | Failed(problem: string, evidence: Option<Measured>)
    | Ran(verified: bool, summary: string, measured: Measured)

  function LastRun(status: Fields): Option<Time> {
    if LastRunTimeKey in status && status[LastRunTimeKey].Instant? then Some(status[LastRunTimeKey].time) else None
  }

  function Observed(status: Fields): string {
    if ObservedGenerationKey in status && status[ObservedGenerationKey].Text? then status[ObservedGenerationKey].text
    else ""
  }

  /** The instant the schedule counts from. */
  function Base(d: Drill): Time {
    match LastRun(d.status)
    case Some(t) => t
    case None => d.created
  }

  datatype Decision = Reject(problem: string) | Rest | Wait(delay: Time) | Start

  function Decide(d: Drill, now: Time): Decision {
    match d.plan
    case Malformed(problem) => Reject(problem)
    case BadSchedule(problem) => Reject(problem)
    case RunOnce =>
      if LastRun(d.status).Some? && Observed(d.status) == Decimal.Print(d.generation) then Rest else Start
    case Cron(next) =>
      match next(Base(d))
      case Some(tick) => if now < tick then Wait(tick - now) else Start
      case None => Start
  }

  predicate Due(d: Drill, now: Time) {
    Decide(d, now).Start?
  }

  // ---- Status patches

  function PhasePatch(phase: Phase, message: string): Fields {
    map[PhaseKey := InPhase(phase), MessageKey := Text(message)]
  }

  function MeasuredPatch(m: Measured): Fields {
    map[RestoreSecondsKey := Number(m.restoreSeconds), BackupAgeKey := Number(m.ageSeconds),
        RtoMetKey := Flag(m.rtoMet), RpoMetKey := Flag(m.rpoMet)]
  }

  function RunningPatch(): Fields {
    PhasePatch(RunningPhase, "drill in progress")
  }

  /** How a run that started at `generation` and ended at `finish` turned out. */
  function EndPatch(generation: nat, finish: Time, o: Outcome): Fields {
    var time: Fields := map[LastRunTimeKey := Instant(WholeSeconds(finish))];
    match o
    case Failed(problem, _) =>
      time + PhasePatch(ErrorPhase, problem)[VerifiedKey := Flag(false)]
    case Ran(verified, summary, _) =>
      time[ObservedGenerationKey := Text(Decimal.Print(generation))] +
      (if verified then PhasePatch(VerifiedPhase, "recovery verified")
       else PhasePatch(FailedPhase, summary))[VerifiedKey := Flag(verified)]
  }

  function Figures(o: Outcome): Option<Measured> {
    if o.Ran? then Some(o.measured) else o.evidence
  }

  /** What is recorded when it ends. */
  function FinalPatch(generation: nat, finish: Time, o: Outcome): Fields {
    EndPatch(generation, finish, o) +
    match Figures(o) case Some(m) => MeasuredPatch(m) case None => map[]
  }

  /** Every patch the operator ever writes. */
  ghost predicate OperatorPatch(p: Fields) {
    || (exists message :: p == PhasePatch(InvalidPhase, message))
    || p == RunningPatch()
    || (exists generation, finish, o :: p == FinalPatch(generation, finish, o))
  }

  /** The final patch of a run that verified. */
  ghost predicate VerifiedPatch(p: Fields) {
    exists generation, finish, o: Outcome :: o.Ran? && o.verified && p == FinalPatch(generation, finish, o)
  }

  function Get(status: Fields, key: Key): Option<Value> {
    if key in status then Some(status[key]) else None
  }

  lemma EndPatchFields(generation: nat, finish: Time, o: Outcome)
    ensures var p := EndPatch(generation, finish, o);
            && Get(p, LastRunTimeKey) == Some(Instant(WholeSeconds(finish)))
            && Get(p, VerifiedKey) == Some(Flag(o.Ran? && o.verified))
            && Get(p, PhaseKey) == Some(InPhase(if o.Failed? then ErrorPhase
                                                else if o.verified then VerifiedPhase else FailedPhase))
            && Get(p, MessageKey) == Some(Text(if o.Failed? then o.problem
                                               else if o.verified then "recovery verified" else o.summary))
            && Get(p, ObservedGenerationKey) == if o.Ran? then Some(Text(Decimal.Print(generation))) else None
    ensures EndPatch(generation, finish, o).Keys <=
      {LastRunTimeKey, VerifiedKey, PhaseKey, MessageKey, ObservedGenerationKey}
  {
  }

  predicate IsFigure(key: Key) {
    key.RestoreSecondsKey? || key.BackupAgeKey? || key.RtoMetKey? || key.RpoMetKey?
  }

  lemma FinalPatchKey(generation: nat, finish: Time, o: Outcome, key: Key)
    ensures Get(FinalPatch(generation, finish, o), key) ==
      if IsFigure(key) then (if Figures(o).Some? then Some(MeasuredPatch(Figures(o).value)[key]) else None)
      else Get(EndPatch(generation, finish, o), key)
  {
    EndPatchFields(generation, finish, o);
  }

  lemma FinalPatchFields(generation: nat, finish: Time, o: Outcome)
    ensures var p := FinalPatch(generation, finish, o);
            && LastRun(p) == Some(WholeSeconds(finish))
            && Get(p, VerifiedKey) == Some(Flag(o.Ran? && o.verified))
            && Get(p, PhaseKey) == Some(InPhase(if o.Failed? then ErrorPhase
                                                else if o.verified then VerifiedPhase else FailedPhase))
            && Get(p, ObservedGenerationKey) == if o.Ran? then Some(Text(Decimal.Print(generation))) else None
  {
    EndPatchFields(generation, finish, o);
    forall key {
      FinalPatchKey(generation, finish, o, key);
    }
    assert Get(FinalPatch(generation, finish, o), LastRunTimeKey) == Some(Instant(WholeSeconds(finish)));
  }

  /** Only the final patch of a verified run says "Verified". */
  lemma VerifiedBy(p: Fields)
    requires OperatorPatch(p)
    ensures PhaseKey in p && (p[PhaseKey] == InPhase(VerifiedPhase) <==> VerifiedPatch(p))
  {
    forall generation, finish, o {
      FinalPatchFields(generation, finish, o);
    }
  }

  predicate HasRun(status: Fields) {
    Get(status, VerifiedKey) == Some(Flag(true)) && LastRun(status).Some?
  }

  lemma VerifiedHasRun(p: Fields) returns (generation: nat)
    requires VerifiedPatch(p)
    ensures HasRun(p) && Get(p, ObservedGenerationKey) == Some(Text(Decimal.Print(generation)))
  {
    var g, finish, o: Outcome :| o.Ran? && o.verified && p == FinalPatch(g, finish, o);
    FinalPatchFields(g, finish, o);
    generation := g;
  }

  /** A published "Verified" was put there by one run, and stands together with what that run recorded. For
      any number of operators, the phase is Verified exactly when the last accepted patch is the final patch
      of a verified run, and then verified is true and the run's time and generation are there. */
  lemma VerifiedPhaseIsWhole(commits: seq<Fields>)
    requires forall p <- commits :: OperatorPatch(p)
    ensures var status := Fold(commits);
            && (Get(status, PhaseKey) == Some(InPhase(VerifiedPhase)) <==>
                  commits != [] && VerifiedPatch(commits[|commits| - 1]))
            && (Get(status, PhaseKey) == Some(InPhase(VerifiedPhase)) ==>
                  && Get(status, VerifiedKey) == Some(Flag(true)) && LastRun(status).Some?
                  && exists generation :: Observed(status) == Decimal.Print(generation))
  {
    if commits != [] {
      var last := commits[|commits| - 1];
      assert last in commits;
      VerifiedBy(last);
      if VerifiedPatch(last) {
        var generation := VerifiedHasRun(last);
        assert Observed(Fold(commits)) == Decimal.Print(generation);
      }
    }
  }

  /** So in every state that any number of operators can bring about, with stale reads, conflicts and lost replies:
      a published "Verified" is the last accepted update's, and comes with what that run recorded. */
  lemma PublishedVerifiedIsWhole(s0: State, events: seq<Status.Event>)
    requires Initial(s0) && Run(s0, events).Some?
    requires forall i :: 0 <= i < |events| && events[i].Begin? ==> OperatorPatch(events[i].fields)
    ensures var server := Run(s0, events).value.server; var status := Current(server);
            Get(status, PhaseKey) == Some(InPhase(VerifiedPhase)) ==>
              && Get(status, VerifiedKey) == Some(Flag(true)) && LastRun(status).Some?
              && (exists generation :: Observed(status) == Decimal.Print(generation))
              && server.commits != [] && VerifiedPatch(server.commits[|server.commits| - 1])
  {
    StatusIsTheFoldOfCommits(s0, events);
    CommitsWereBegun(s0, events);
    var commits := Run(s0, events).value.server.commits;
    forall p | p in commits ensures OperatorPatch(p) {
      assert Begun(events, p);
    }
    VerifiedPhaseIsWhole(commits);
  }

  // ---- One reconciliation

  /** How a status patch ends: accepted, not accepted, or accepted behind an error. */
  datatype Reply = Accepted | Rejected | ReplyLost

  /** A spec edit; or one reconciliation, with the clock when it decides and when the drill has ended, the drill's
      outcome, whether the first status patch is accepted (its error is ignored), how the final one ends, and an edit
      made while the drill ran. */
  datatype Event =
    | Edit(plan: Plan)
    | Look(now: Time, finish: Time, outcome: Outcome, announced: bool, final: Reply, edited: Option<Plan>)
  {
    /** The final patch is in the object, whatever the operator was told. */
    predicate Recorded()
      requires Look?
    {
      !final.Rejected?
    }
  }

  function Edited(d: Drill, plan: Plan): Drill {
    d.(generation := d.generation + 1, plan := plan)
  }

  function Patched(d: Drill, accepted: bool, patch: Fields): Drill {
    if accepted then d.(status := d.status + patch) else d
  }

  function Step(d: Drill, e: Event): Drill {
    match e
    case Edit(plan) => Edited(d, plan)
    case Look(now, finish, outcome, announced, _, edited) =>
      match Decide(d, now)
      case Reject(problem) => Patched(d, announced, PhasePatch(InvalidPhase, problem))
      case Rest => d
      case Wait(_) => d
      case Start =>
        var d1 := Patched(d, announced, RunningPatch());
        var d2 := if edited.Some? then Edited(d1, edited.value) else d1;
        Patched(d2, e.Recorded(), FinalPatch(d.generation, finish, outcome))
  }

  predicate Shows(status: Fields, phase: Phase, message: string) {
    Get(status, PhaseKey) == Some(InPhase(phase)) && Get(status, MessageKey) == Some(Text(message))
  }

  predicate SameFigures(a: Fields, b: Fields) {
    && Get(a, RestoreSecondsKey) == Get(b, RestoreSecondsKey) && Get(a, BackupAgeKey) == Get(b, BackupAgeKey)
    && Get(a, RtoMetKey) == Get(b, RtoMetKey) && Get(a, RpoMetKey) == Get(b, RpoMetKey)
  }

  lemma RecordedKey(d: Drill, e: Event, key: Key)
    requires e.Look? && Decide(d, e.now).Start? && e.final != Rejected
    ensures var p := FinalPatch(d.generation, e.finish, e.outcome);
      Get(Step(d, e).status, key) == if key in p then Some(p[key]) else Get(d.status, key)
  {
    EndPatchFields(d.generation, e.finish, e.outcome);
  }

  /** What a recorded run leaves in the object: when it ended and how. An execution error leaves the generation as it
      was. */
  lemma OutcomeIsPublished(d: Drill, e: Event)
    requires e.Look? && Decide(d, e.now).Start? && e.final != Rejected
    ensures var o, before, after := e.outcome, d.status, Step(d, e).status;
      && Get(after, LastRunTimeKey) == Some(Instant(WholeSeconds(e.finish)))
      && Get(after, VerifiedKey) == Some(Flag(o.Ran? && o.verified))
      && (match o
          case Failed(problem, _) => Shows(after, ErrorPhase, problem)
          case Ran(true, _, _) => Shows(after, VerifiedPhase, "recovery verified")
          case Ran(false, summary, _) => Shows(after, FailedPhase, summary))
      && Get(after, ObservedGenerationKey) ==
           (if o.Ran? then Some(Text(Decimal.Print(d.generation))) else Get(before, ObservedGenerationKey))
  {
    EndPatchFields(d.generation, e.finish, e.outcome);
    forall key {
      RecordedKey(d, e, key);
    }
  }

  lemma PublishedKey(d: Drill, e: Event, key: Key)
    requires e.Look? && Decide(d, e.now).Start? && e.final != Rejected && (IsFigure(key) || key.OtherKey?)
    ensures Get(Step(d, e).status, key) ==
      if IsFigure(key) && Figures(e.outcome).Some? then Some(MeasuredPatch(Figures(e.outcome).value)[key])
      else Get(d.status, key)
  {
    EndPatchFields(d.generation, e.finish, e.outcome);
    RecordedKey(d, e, key);
    FinalPatchKey(d.generation, e.finish, e.outcome, key);
  }

  /** What the object shows as measured. */
  predicate ShowsFigures(status: Fields, m: Measured) {
    && Get(status, RestoreSecondsKey) == Some(Number(m.restoreSeconds))
    && Get(status, BackupAgeKey) == Some(Number(m.ageSeconds))
    && Get(status, RtoMetKey) == Some(Flag(m.rtoMet)) && Get(status, RpoMetKey) == Some(Flag(m.rpoMet))
  }

  /** And what it measured, each figure under its own name. Without a measurement the older figures stay, and fields
      that are not the operator's always do. */
  lemma FiguresArePublished(d: Drill, e: Event, after: Fields, name: string)
    requires e.Look? && Decide(d, e.now).Start? && e.final != Rejected && after == Step(d, e).status
    ensures e.outcome.Ran? ==> ShowsFigures(after, e.outcome.measured)
    ensures e.outcome.Failed? && e.outcome.evidence.Some? ==> ShowsFigures(after, e.outcome.evidence.value)
    ensures e.outcome.Failed? && e.outcome.evidence.None? ==> SameFigures(after, d.status)
    ensures Get(after, OtherKey(name)) == Get(d.status, OtherKey(name))
  {
    PublishedKey(d, e, RestoreSecondsKey);
    PublishedKey(d, e, BackupAgeKey);
    PublishedKey(d, e, RtoMetKey);
    PublishedKey(d, e, RpoMetKey);
    PublishedKey(d, e, OtherKey(name));
  }

  /** What any other look leaves: a spec that cannot be scheduled is called invalid, a run whose end was not recorded is
      still shown as going on, provided that the patch was accepted; and looking alone changes nothing. */
  lemma LookIsPublished(d: Drill, e: Event)
    requires e.Look? && (Decide(d, e.now).Start? ==> e.final == Rejected)
    ensures var before, after := d.status, Step(d, e).status;
      && (match d.plan
          case Malformed(problem) => e.announced ==> Shows(after, InvalidPhase, problem)
          case BadSchedule(problem) => e.announced ==> Shows(after, InvalidPhase, problem)
          case _ => e.announced && Decide(d, e.now).Start? ==> Shows(after, RunningPhase, "drill in progress"))
      && (!e.announced || Decide(d, e.now).Rest? || Decide(d, e.now).Wait? ==> after == before)
      && forall key :: key != PhaseKey && key != MessageKey ==> Get(after, key) == Get(before, key)
  {
  }

  /** What becomes of the object: nothing until something changes, another look after a delay, or one after the
      queue's own back-off. A delay that is not positive is no delay but nothing. */
  datatype Requeue = NoRequeue | After(delay: Time) | BackOff

  function RequeueAfter(delay: Time): Requeue {
    if delay > 0 then After(delay) else NoRequeue
  }

  /** The wake-up after a run, from two readings of the clock: `resume`, for which the next tick is sought, and
      `dispatch`, from which the delay is counted. The zero time of a schedule without ticks is long past. */
  function WakeUp(plan: Plan, resume: Time, dispatch: Time): Requeue {
    if plan.Cron? && plan.next(resume).Some? then RequeueAfter(plan.next(resume).value - dispatch) else NoRequeue
  }

  /** The server's object. */
  class Object {
    var d: Drill

    constructor (d: Drill)
      ensures this.d == d
    {
      this.d := d;
    }

    method Patch(accepted: bool, patch: Fields)
      modifies this
      ensures d == Patched(old(d), accepted, patch)
    {
      if accepted {
        d := d.(status := d.status + patch);
      }
    }

    /** The drill runs; meanwhile the spec may be edited. */
    method Run(edited: Option<Plan>)
      modifies this
      ensures d == if edited.Some? then Edited(old(d), edited.value) else old(d)
    {
      if edited.Some? {
        d := Edited(d, edited.value);
      }
    }
  }

  /** Fills the final status step by step. */
  method FinalStatus(generation: nat, finish: Time, o: Outcome) returns (status: Fields)
    ensures status == FinalPatch(generation, finish, o)
  {
    status := map[LastRunTimeKey := Instant(WholeSeconds(finish))];
    var evidence: Option<Measured>;
    match o {
      case Failed(problem, m) =>
        status := status + map[PhaseKey := InPhase(ErrorPhase), MessageKey := Text(problem),
                               VerifiedKey := Flag(false)];
        evidence := m;
      case Ran(verified, summary, m) =>
        status := status[ObservedGenerationKey := Text(Decimal.Print(generation))];
        if verified {
          status := status + map[PhaseKey := InPhase(VerifiedPhase), MessageKey := Text("recovery verified"),
                                 VerifiedKey := Flag(true)];
        } else {
          status := status + map[PhaseKey := InPhase(FailedPhase), MessageKey := Text(summary),
                                 VerifiedKey := Flag(false)];
        }
        evidence := Some(m);
    }
    if evidence.Some? {
      status := status + MeasuredPatch(evidence.value);
    }
    assert status == FinalPatch(generation, finish, o);
  }

  method Reconcile(obj: Object, e: Event, resume: Time, dispatch: Time) returns (r: Requeue)
    requires e.Look?
    modifies obj
    ensures obj.d == Step(old(obj.d), e)
    ensures match Decide(old(obj.d), e.now)
      case Reject(_) => r == NoRequeue
      case Rest => r == NoRequeue
      case Wait(delay) => r == After(delay)
      case Start =>
        if !e.final.Accepted? then r == BackOff
        else if e.outcome.Failed? then r == After(5 * 60 * SECOND)
        else r == WakeUp(old(obj.d).plan, resume, dispatch)
    ensures r.After? ==> r.delay > 0
  {
    var seen := obj.d;
    if seen.plan.Malformed? || seen.plan.BadSchedule? {
      obj.Patch(e.announced, PhasePatch(InvalidPhase, seen.plan.problem));
      return NoRequeue;
    }
    var lastRun := LastRun(seen.status);
    if seen.plan.RunOnce? {
      if lastRun.Some? && Observed(seen.status) == Decimal.Print(seen.generation) {
        return NoRequeue;
      }
    } else {
      var base := if lastRun.Some? then lastRun.value else seen.created;
      var nextRun := seen.plan.next(base);
      if nextRun.Some? && e.now < nextRun.value {
        return After(nextRun.value - e.now);
      }
    }
    obj.Patch(e.announced, RunningPatch());
    obj.Run(e.edited);
    var status := FinalStatus(seen.generation, e.finish, e.outcome);
    obj.Patch(e.Recorded(), status);
    if !e.final.Accepted? {
      return BackOff;
    }
    if e.outcome.Failed? {
      return After(RETRY_DELAY);
    }
    if seen.plan.Cron? && seen.plan.next(resume).Some? {
      return RequeueAfter(seen.plan.next(resume).value - dispatch);
    }
    r := NoRequeue;
  }
}
