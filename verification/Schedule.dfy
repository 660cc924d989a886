/** What whole runs of the scheduling loop keep: each attempt of a scheduled drill uses up a tick of its own,
    and an unscheduled drill executes once for every generation of its spec. */
module Schedule {
  import opened Clock
  import opened Wrappers
  import opened Reconcile
  import Status
  import Decimal

  function After(d: Drill, events: seq<Event>): Drill {
    if events == [] then d else Step(After(d, events[..|events| - 1]), events[|events| - 1])
  }

  predicate Attempts(d: Drill, e: Event) {
    e.Look? && Due(d, e.now)
  }

  // ---- Schedules

  /** A schedule that never runs out: the next tick is later, on a whole second, and none is skipped. */
  ghost predicate Ticking(next: Time -> Option<Time>) {
    && (forall t :: next(t).Some? && next(t).value > t && next(t).value % SECOND == 0)
    && (forall t, u :: t <= u && u < next(t).value ==> next(u) == next(t))
  }

  /** How many ticks lie after `a` and no later than `b`. */
  ghost function Ticks(next: Time -> Option<Time>, a: Time, b: Time): nat
    requires Ticking(next)
    decreases b - a
  {
    if next(a).value > b then 0 else 1 + Ticks(next, next(a).value, b)
  }

  lemma {:induction false} TicksSplit(next: Time -> Option<Time>, a: Time, m: Time, b: Time)
    requires Ticking(next) && a <= m <= b
    ensures Ticks(next, a, b) == Ticks(next, a, m) + Ticks(next, m, b)
    decreases m - a
  {
    if next(a).value <= m {
      TicksSplit(next, next(a).value, m, b);
    }
  }

  datatype Attempt = Attempt(tick: Time, start: Time)

  /** The attempts of a run, each with the tick it answers. */
  function AttemptsOf(d: Drill, next: Time -> Option<Time>, events: seq<Event>): seq<Attempt> {
    if events == [] then []
    else
      var init, e := events[..|events| - 1], events[|events| - 1];
      var before := After(d, init);
      AttemptsOf(d, next, init) +
      if Attempts(before, e) && next(Base(before)).Some? then [Attempt(next(Base(before)).value, e.now)] else []
  }

  lemma PatchKeepsRest(d: Drill, e: Event)
    requires e.Look? && e.edited.None?
    ensures var d' := Step(d, e); d'.plan == d.plan && d'.created == d.created && d'.generation == d.generation
  {
  }

  /** A recorded attempt moves the base of the schedule to the second in which it finished; nothing else does. */
  lemma BaseAfter(d: Drill, e: Event)
    requires e.Look?
    ensures LastRun(Step(d, e).status) ==
            if Attempts(d, e) && e.Recorded() then Some(WholeSeconds(e.finish)) else LastRun(d.status)
  {
    FinalPatchFields(d.generation, e.finish, e.outcome);
  }

  /** Although the recorded time drops its fraction of a second, it is no earlier than the tick that was due. */
  lemma TickIsBehind(tick: Time, finish: Time)
    requires tick % SECOND == 0 && tick <= finish
    ensures tick <= WholeSeconds(finish)
  {
  }

  predicate Sound(e: Event) {
    e.Look? && e.now <= e.finish && e.final != Rejected && e.edited.None?
  }

  /** One reconciliation: an attempt moves the base to or past the tick it answers; anything else leaves it. */
  lemma BaseMoves(d: Drill, next: Time -> Option<Time>, e: Event)
    requires d.plan == Cron(next) && Ticking(next) && Sound(e)
    ensures var d' := Step(d, e);
            && d'.plan == d.plan
            && (if Attempts(d, e) then Base(d) < next(Base(d)).value <= Base(d') && next(Base(d)).value <= e.now
                else Base(d') == Base(d))
            && (Base(d') == Base(d) || Base(d') <= e.finish)
  {
    PatchKeepsRest(d, e);
    BaseAfter(d, e);
    if Attempts(d, e) {
      TickIsBehind(next(Base(d)).value, e.finish);
    }
  }

  lemma {:induction false} BaseGrows(d: Drill, next: Time -> Option<Time>, events: seq<Event>, end: Time)
    requires d.plan == Cron(next) && Ticking(next) && forall e <- events :: Sound(e) && e.finish <= end
    requires Base(d) <= end
    ensures After(d, events).plan == d.plan && Base(d) <= Base(After(d, events)) <= end
  {
    if events != [] {
      BaseGrows(d, next, events[..|events| - 1], end);
      BaseMoves(After(d, events[..|events| - 1]), next, events[|events| - 1]);
    }
  }

  /** Each attempt answers a tick of its own: later than every tick answered before it and than the base the
      run started from, and no later than the attempt's start. */
  lemma {:induction false} AttemptsAnswerDistinctTicks(d: Drill, next: Time -> Option<Time>, events: seq<Event>,
                                                       end: Time)
    requires d.plan == Cron(next) && Ticking(next) && forall e <- events :: Sound(e) && e.finish <= end
    requires Base(d) <= end
    ensures var attempts, d' := AttemptsOf(d, next, events), After(d, events);
            && (forall a <- attempts :: Base(d) < a.tick && a.tick <= a.start && a.tick <= Base(d'))
            && (forall i, j :: 0 <= i < j < |attempts| ==> attempts[i].tick < attempts[j].tick)
  {
    if events != [] {
      var init, e := events[..|events| - 1], events[|events| - 1];
      BaseGrows(d, next, init, end);
      AttemptsAnswerDistinctTicks(d, next, init, end);
      BaseMoves(After(d, init), next, e);
    }
  }

  /** So attempts never outnumber the ticks that have passed, however late the operator is and however long
      the drills take. */
  lemma {:induction false} AttemptsNeverOutnumberTicks(d: Drill, next: Time -> Option<Time>, events: seq<Event>,
                                                       end: Time)
    requires d.plan == Cron(next) && Ticking(next) && forall e <- events :: Sound(e) && e.finish <= end
    requires Base(d) <= end
    ensures |AttemptsOf(d, next, events)| <= Ticks(next, Base(d), Base(After(d, events))) <= Ticks(next, Base(d), end)
  {
    BaseGrows(d, next, events, end);
    TicksSplit(next, Base(d), Base(After(d, events)), end);
    if events != [] {
      var init, e := events[..|events| - 1], events[|events| - 1];
      BaseGrows(d, next, init, end);
      AttemptsNeverOutnumberTicks(d, next, init, end);
      var before := After(d, init);
      BaseMoves(before, next, e);
      TicksSplit(next, Base(d), Base(before), Base(After(d, events)));
    }
  }

  /** What a schedule counts from: the end of the last run in the object's status, or its creation if there was none.
      The drill is due from the next tick after that, and until then told to wait for it. */
  lemma CountsFrom(d: Drill, next: Time -> Option<Time>, from: Time, now: Time)
    requires d.plan == Cron(next) && Ticking(next)
    requires match Get(d.status, Status.LastRunTimeKey)
      case None => from == d.created
      case Some(recorded) => recorded == Status.Instant(from)
    ensures Due(d, now) <==> next(from).value <= now
    ensures now < next(from).value ==> Decide(d, now) == Wait(next(from).value - now)
  {
  }

  /** An unscheduled drill is due unless its status has a run, and one of just this generation. */
  lemma RestsOnceObserved(d: Drill, time: Time, observed: string, now: Time)
    requires d.plan.RunOnce?
    requires Get(d.status, Status.ObservedGenerationKey) in {None, Some(Status.Text(observed))}
    requires Get(d.status, Status.LastRunTimeKey) in {None, Some(Status.Instant(time))}
    ensures Due(d, now) <==>
      (Get(d.status, Status.LastRunTimeKey).None? || Get(d.status, Status.ObservedGenerationKey).None? ||
       observed != Decimal.Print(d.generation))
  {
    GenerationsPrintApart(d.generation, 0);
  }

  function Started(d: Drill, events: seq<Event>): nat {
    if events == [] then 0
    else
      var init, e := events[..|events| - 1], events[|events| - 1];
      Started(d, init) + if e.Look? && Due(After(d, init), e.now) then 1 else 0
  }

  lemma {:induction false} EveryStartIsAnAttempt(d: Drill, next: Time -> Option<Time>, events: seq<Event>)
    requires Ticking(next)
    ensures |AttemptsOf(d, next, events)| == Started(d, events)
    ensures forall a <- AttemptsOf(d, next, events) :: exists e <- events :: e.Look? && e.now == a.start
  {
    if events != [] {
      var init, e := events[..|events| - 1], events[|events| - 1];
      EveryStartIsAnAttempt(d, next, init);
      assert events == init + [e];
      assert forall x <- init :: x in events;
    }
  }

  /** A new drill runs no more often than its schedule has ticked since its creation. */
  lemma NewDrillKeepsToItsTicks(d: Drill, next: Time -> Option<Time>, events: seq<Event>, end: Time)
    requires d.plan == Cron(next) && Ticking(next) && forall e <- events :: Sound(e) && e.finish <= end
    requires d.status == map[] && d.created <= end
    ensures Started(d, events) <= Ticks(next, d.created, end)
  {
    EveryStartIsAnAttempt(d, next, events);
    AttemptsNeverOutnumberTicks(d, next, events, end);
  }

  /** When an attempt's final patch is not accepted, the next attempt answers the same tick again; that is the only
      way two attempts can share one. */
  lemma UnrecordedAttemptRepeats(d: Drill, next: Time -> Option<Time>, e: Event)
    requires d.plan == Cron(next) && Ticking(next)
    requires Attempts(d, e) && e.now <= e.finish && e.edited.None?
    ensures next(Base(Step(d, e))) == next(Base(d)) <==> e.final == Rejected
    ensures e.final != Rejected ==> next(Base(Step(d, e))).value > next(Base(d)).value
  {
    PatchKeepsRest(d, e);
    BaseAfter(d, e);
    TickIsBehind(next(Base(d)).value, e.finish);
  }

  /** A drill that is told to wait is due exactly from the end of the wait on. */
  lemma WaitEndsWhenDue(d: Drill, now: Time, later: Time)
    requires Decide(d, now).Wait?
    ensures Decide(d, now).delay > 0
    ensures Due(d, later) <==> later >= now + Decide(d, now).delay
  {
  }

  /** The wake-up computed after a run is for the tick at which the drill is really due, unless a tick fell
      between the recorded finish and the moment of the computation: then it is for a later one. */
  lemma WakeUpAfterRun(d: Drill, next: Time -> Option<Time>, e: Event, resume: Time)
    requires d.plan == Cron(next) && Ticking(next) && Attempts(d, e) && e.final != Rejected && e.edited.None?
    requires e.finish <= resume
    ensures var due := next(Base(Step(d, e))).value;
            && (forall t :: Due(Step(d, e), t) <==> t >= due)
            && due <= next(resume).value
            && (next(resume).value == due <==> resume < due)
  {
    PatchKeepsRest(d, e);
    BaseAfter(d, e);
    var base := Base(Step(d, e));
    if next(base).value <= resume {
      assert next(resume).value > next(base).value;
    }
  }

  /** The wake-up is set exactly when the tick has not come between the two readings of the clock. If it has, the drill
      is already due, but nothing wakes the operator for it. */
  lemma WakeUpIsSet(d: Drill, next: Time -> Option<Time>, e: Event, resume: Time, dispatch: Time)
    requires d.plan == Cron(next) && Ticking(next) && Attempts(d, e) && e.final != Rejected && e.edited.None?
    requires e.finish <= resume <= dispatch
    ensures WakeUp(d.plan, resume, dispatch).After? <==> Ticks(next, resume, dispatch) == 0
    ensures WakeUp(d.plan, resume, dispatch).After? ==>
      WakeUp(d.plan, resume, dispatch).delay == next(resume).value - dispatch > 0
    ensures WakeUp(d.plan, resume, dispatch).NoRequeue? ==> Due(Step(d, e), dispatch)
  {
    WakeUpAfterRun(d, next, e, resume);
  }

  /** The retry five minutes after an execution error re-runs an unscheduled drill. A scheduled one it re-runs
      only when a tick has passed since, for the error was recorded as a run. */
  lemma RetryAfterError(d: Drill, e: Event, later: Time)
    requires Attempts(d, e) && e.final != Rejected && e.edited.None? && e.outcome.Failed?
    requires d.plan.RunOnce? ==> Observed(d.status) != Decimal.Print(d.generation)
    ensures d.plan.RunOnce? ==> Due(Step(d, e), later)
    ensures d.plan.Cron? && Ticking(d.plan.next) ==>
      (Due(Step(d, e), later) <==> d.plan.next(WholeSeconds(e.finish)).value <= later)
  {
    PatchKeepsRest(d, e);
    BaseAfter(d, e);
    FinalPatchFields(d.generation, e.finish, e.outcome);
  }

  /** A drill is due at every moment exactly when its schedule has no tick after the last run: the zero time that
      stands for it lies before every moment. */
  lemma AlwaysDueMeansNoTick(d: Drill, next: Time -> Option<Time>)
    requires d.plan == Cron(next)
    ensures (forall now :: Due(d, now)) <==> next(Base(d)).None?
  {
    if next(Base(d)).Some? {
      assert !Due(d, next(Base(d)).value - 1);
    }
  }

  /** A schedule that never ticks makes its drill due at every moment, before and after any run. */
  lemma NeverTickingIsAlwaysDue(d: Drill, next: Time -> Option<Time>, events: seq<Event>, now: Time)
    requires d.plan == Cron(next) && (forall t :: next(t).None?)
    requires forall i :: 0 <= i < |events| ==> events[i].Look? && events[i].edited.None?
    ensures Due(After(d, events), now)
  {
    PlanStays(d, events);
  }

  lemma {:induction false} PlanStays(d: Drill, events: seq<Event>)
    requires forall i :: 0 <= i < |events| ==> events[i].Look? && events[i].edited.None?
    ensures After(d, events).plan == d.plan
  {
    if events != [] {
      PlanStays(d, events[..|events| - 1]);
      PatchKeepsRest(After(d, events[..|events| - 1]), events[|events| - 1]);
    }
  }

  // ---- Unscheduled drills

  /** Every spec is without a schedule and every final patch is accepted; edits may come at any time, also
      while the drill runs. */
  predicate Unscheduled(events: seq<Event>) {
    forall i :: 0 <= i < |events| ==>
      if events[i].Edit? then events[i].plan.RunOnce?
      else events[i].final != Rejected && (events[i].edited.Some? ==> events[i].edited.value.RunOnce?)
  }

  /** How often the drill executed, with whatever verdict, for generation `g`. */
  function Executions(d: Drill, events: seq<Event>, g: nat): nat {
    if events == [] then 0
    else
      var init, e := events[..|events| - 1], events[|events| - 1];
      var before := After(d, init);
      Executions(d, init, g) + if Attempts(before, e) && e.outcome.Ran? && before.generation == g then 1 else 0
  }

  /** The recorded generation is one that was, and was recorded with a time. */
  ghost predicate Recorded(d: Drill) {
    Observed(d.status) == "" ||
    (LastRun(d.status).Some? && exists g :: 0 <= g <= d.generation && Observed(d.status) == Decimal.Print(g))
  }

  lemma GenerationsPrintApart(g: nat, h: nat)
    ensures Decimal.Print(g) == Decimal.Print(h) ==> g == h
    ensures Decimal.Print(g) != ""
  {
    Decimal.ReadInvertsPrint(g, Decimal.Print(h));
    Decimal.ReadInvertsPrint(h, Decimal.Print(h));
    Decimal.PrintIsCanonical(g);
  }

  lemma RecordedAfter(d: Drill, e: Event)
    requires d.plan.RunOnce? && Recorded(d) && Unscheduled([e])
    ensures var d' := Step(d, e);
            && d'.plan.RunOnce? && Recorded(d')
            && d'.generation == d.generation + (if e.Edit? || (Due(d, e.now) && e.edited.Some?) then 1 else 0)
            && (Observed(d'.status) == Decimal.Print(d.generation) <==>
                  Observed(d.status) == Decimal.Print(d.generation) || (Attempts(d, e) && e.outcome.Ran?))
  {
    assert [e][0] == e;
    if e.Look? {
      FinalPatchFields(d.generation, e.finish, e.outcome);
    }
    GenerationsPrintApart(d.generation, 0);
  }

  /** Executed without error, a generation is done. */
  ghost predicate DoneOnce(d: Drill, events: seq<Event>) {
    var d' := After(d, events);
    && d'.plan.RunOnce? && Recorded(d')
    && (forall g :: Executions(d, events, g) <= 1)
    && (forall g :: g > d'.generation ==> Executions(d, events, g) == 0)
    && (Observed(d'.status) == Decimal.Print(d'.generation) <==> Executions(d, events, d'.generation) == 1)
  }

  lemma DueUntilObserved(d: Drill, now: Time)
    requires d.plan.RunOnce? && Recorded(d)
    ensures Due(d, now) <==> Observed(d.status) != Decimal.Print(d.generation)
  {
    GenerationsPrintApart(d.generation, 0);
  }

  lemma ObservedIsOld(d: Drill, g: nat)
    requires Recorded(d) && g > d.generation
    ensures Observed(d.status) != Decimal.Print(g)
  {
    GenerationsPrintApart(g, 0);
    forall h: nat {
      GenerationsPrintApart(h, g);
    }
  }

  lemma {:induction false} RunsKeepDoneOnce(d: Drill, events: seq<Event>)
    requires d.plan.RunOnce? && Observed(d.status) == "" && Unscheduled(events)
    ensures DoneOnce(d, events)
  {
    GenerationsPrintApart(d.generation, 0);
    if events != [] {
      var init, e := events[..|events| - 1], events[|events| - 1];
      assert Unscheduled(init) && Unscheduled([e]);
      RunsKeepDoneOnce(d, init);
      var before, d' := After(d, init), After(d, events);
      RecordedAfter(before, e);
      if e.Look? {
        DueUntilObserved(before, e.now);
      }
      if d'.generation > before.generation {
        ObservedIsOld(before, d'.generation);
        GenerationsPrintApart(before.generation, d'.generation);
        NewGenerationIsNotObserved(before, e);
      }
    }
  }

  lemma NewGenerationIsNotObserved(d: Drill, e: Event)
    requires d.plan.RunOnce? && Recorded(d) && Unscheduled([e]) && Step(d, e).generation == d.generation + 1
    ensures Observed(Step(d, e).status) != Decimal.Print(d.generation + 1)
  {
    assert [e][0] == e;
    ObservedIsOld(d, d.generation + 1);
    GenerationsPrintApart(d.generation, d.generation + 1);
    if e.Look? {
      FinalPatchFields(d.generation, e.finish, e.outcome);
    }
  }

  /** A drill without a schedule executes at most once for every generation of its spec, and is due exactly as
      long as the current generation has not executed. An edit, even one made while the drill runs, makes the
      new generation due. */
  lemma EachGenerationRunsOnce(d: Drill, events: seq<Event>, g: nat, now: Time)
    requires d.plan.RunOnce? && Observed(d.status) == "" && Unscheduled(events)
    ensures Executions(d, events, g) <= 1
    ensures Due(After(d, events), now) <==> Executions(d, events, After(d, events).generation) == 0
  {
    RunsKeepDoneOnce(d, events);
    DueUntilObserved(After(d, events), now);
  }
}
