/** The interleaved model and the provisioning code agree: a run of the main thread alone, with every request granted,
    makes the world that the code promises, and arms the watchdog. */
module SoloRun {
  import opened Clock
  import opened Wrappers
  import opened Resources
  import opened DrillRun
  import opened Providers
  import opened Sandboxes

  /** Only the main thread moves, and every request is granted. */
  predicate Solo(events: seq<Event>) {
    forall i :: 0 <= i < |events| ==> events[i].MainStep? && events[i].fate.Granted?
  }

  /** The states a run goes through. */
  predicate Trace(cfg: Config, events: seq<Event>, states: seq<State>) {
    && |states| == |events| + 1
    && forall i :: 0 <= i < |events| ==> Next(cfg, states[i], events[i]) == Some(states[i + 1])
  }

  lemma {:induction false} TraceOf(cfg: Config, s0: State, events: seq<Event>) returns (states: seq<State>)
    requires Run(cfg, s0, events).Some?
    ensures Trace(cfg, events, states) && states[0] == s0 && states[|events|] == Run(cfg, s0, events).value
  {
    if events == [] {
      states := [s0];
    } else {
      var init, last := events[..|events| - 1], |events| - 1;
      var before := TraceOf(cfg, s0, init);
      states := before + [Run(cfg, s0, events).value];
      forall i | 0 <= i < |events| ensures Next(cfg, states[i], events[i]) == Some(states[i + 1]) {
        if i < last {
          assert Next(cfg, before[i], init[i]) == Some(before[i + 1]);
        }
      }
    }
  }

  /** Where a program stands after some granted steps of the main thread alone. */
  predicate Stands(cfg: Config, events: seq<Event>, states: seq<State>, k: nat) {
    Solo(events) && Trace(cfg, events, states) && k < |events| && k < |cfg.program| && states[k].main == At(k)
  }

  /** Calls change nothing but the place in the program. */
  lemma {:induction false} CallsOnly(cfg: Config, events: seq<Event>, states: seq<State>, i: nat, j: nat)
    requires Stands(cfg, events, states, i) && i < j <= |events| && j <= |cfg.program|
    requires forall k :: i <= k < j ==> cfg.program[k].op.Call?
    ensures states[j] == states[i].(main := At(j))
    decreases j - i
  {
    assert states[i + 1] == states[i].(main := At(i + 1));
    if i + 1 < j {
      CallsOnly(cfg, events, states, i + 1, j);
    }
  }

  /** A granted creation, with the id that the reply tells or that was chosen before. */
  lemma Created(cfg: Config, events: seq<Event>, states: seq<State>, k: nat, slot: Slot, learned: bool) returns (id: Id)
    requires Stands(cfg, events, states, k) && cfg.program[k].op == Create(slot, learned)
    ensures var s := states[k];
            && (if learned then id == events[k].id && Unused(s.o, id) else slot in s.handles && id == s.handles[slot])
            && states[k + 1] == s.(main := At(k + 1), handles := s.handles[slot := id],
                 o := Make(s.o, id, NewResource(cfg, slot, s.o.now, s.handles), false, Passed(s.t.once, slot)))
  {
    var s := states[k];
    assert Next(cfg, s, events[k]) == Some(states[k + 1]);
    id := if learned then events[k].id else s.handles[slot];
  }

  lemma Reserved(cfg: Config, events: seq<Event>, states: seq<State>, k: nat, slot: Slot)
    requires Stands(cfg, events, states, k) && cfg.program[k].op == Reserve(slot)
    ensures var s, id := states[k], events[k].id;
            && Unused(s.o, id)
            && states[k + 1] == s.(handles := s.handles[slot := id], o := s.o.(mine := s.o.mine + {id}),
                                   main := At(k + 1))
  {
    assert Next(cfg, states[k], events[k]) == Some(states[k + 1]);
  }

  function Started(w: World, c: Id): World
    requires c in w
  {
    w[c := w[c].(running := true)]
  }

  lemma Starts(cfg: Config, events: seq<Event>, states: seq<State>, k: nat, slot: Slot)
    requires Stands(cfg, events, states, k) && cfg.program[k].op == Start(slot)
    requires slot in states[k].handles && states[k].handles[slot] in states[k].o.w
    ensures var s := states[k];
            states[k + 1] == s.(o := s.o.(w := Started(s.o.w, s.handles[slot])), main := At(k + 1))
  {
    assert Next(cfg, states[k], events[k]) == Some(states[k + 1]);
  }

  lemma Arms(cfg: Config, events: seq<Event>, states: seq<State>, k: nat)
    requires Stands(cfg, events, states, k) && cfg.program[k].op == Arm
    ensures states[k + 1] == states[k].(watch := Armed, main := At(k + 1))
  {
    assert Next(cfg, states[k], events[k]) == Some(states[k + 1]);
  }

  lemma NetworkFirst(cfg: Config, events: seq<Event>, states: seq<State>) returns (n: Id)
    requires Solo(events) && Trace(cfg, events, states) && |events| >= 3 && |cfg.program| >= 3 && Initial(states[0])
    requires cfg.second == Network && cfg.program[0].op.Call? && cfg.program[2].op.Call?
    requires cfg.program[1].op == Create(Second, true)
    ensures var s0 := states[0];
            && n == events[1].id && n !in s0.o.w
            && states[3] == s0.(main := At(3), handles := map[Second := n],
                 o := Outside(s0.o.w[n := NetworkOf(s0.o.now)], s0.o.now, {n}, {}, {}))
  {
    CallsOnly(cfg, events, states, 0, 1);
    n := Created(cfg, events, states, 1, Second, true);
    assert {} + {n} == {n};
    CallsOnly(cfg, events, states, 2, 3);
  }

  /** A program that makes a network and a container on it. */
  lemma ContainerOnNetwork(cfg: Config, events: seq<Event>, states: seq<State>)
    requires Solo(events) && Trace(cfg, events, states) && |events| == 8 <= |cfg.program| && Initial(states[0])
    requires cfg.first == Container && cfg.second == Network
    requires forall k <- [0, 2, 5, 6] :: cfg.program[k].op.Call?
    requires cfg.program[1].op == Create(Second, true) && cfg.program[3].op == Create(First, true)
    requires cfg.program[4].op == Start(First) && cfg.program[7].op == Arm
    ensures var s0, s, n, c := states[0], states[8], events[1].id, events[3].id;
            && n !in s0.o.w && c !in s0.o.w && c != n
            && s.handles == map[First := c, Second := n] && s.main == At(8) && s.watch.Armed?
            && s.o.w == s0.o.w[n := NetworkOf(s0.o.now)][c := ContainerOf(s0.o.now, cfg.ttl, n, true)]
  {
    var n := NetworkFirst(cfg, events, states);
    var c := Created(cfg, events, states, 3, First, true);
    Starts(cfg, events, states, 4, First);
    CallsOnly(cfg, events, states, 5, 7);
    Arms(cfg, events, states, 7);
    var w := states[0].o.w[n := NetworkOf(states[0].o.now)];
    var halfway := ContainerOf(states[0].o.now, cfg.ttl, n, false);
    assert Started(w[c := halfway], c) == w[c := halfway.(running := true)];
  }

  /** Docker: the world of a successful ProvisionDocker. */
  lemma DockerSoloRun(ttl: Time, s0: State, events: seq<Event>)
    requires Initial(s0) && Solo(events) && |events| == 8 && Run(Docker(ttl), s0, events).Some?
    ensures var s, n, c := Run(Docker(ttl), s0, events).value, events[1].id, events[3].id;
            && n !in s0.o.w && c !in s0.o.w && c != n
            && s.handles == map[First := c, Second := n] && s.main == At(8) && s.watch.Armed?
            && s.o.w == s0.o.w[n := NetworkOf(s0.o.now)][c := ContainerOf(s0.o.now, ttl, n, true)]
  {
    var states := TraceOf(Docker(ttl), s0, events);
    ContainerOnNetwork(Docker(ttl), events, states);
  }

  /** Up to `arm`, everything but the choice of a name and the creation is a call. */
  predicate CallsBut(cfg: Config, create: nat, arm: nat) {
    arm <= |cfg.program| && forall k :: 0 <= k < arm && k != 1 && k != create ==> cfg.program[k].op.Call?
  }

  lemma CallsOfKubernetes(ttl: Time)
    ensures CallsBut(Kubernetes(ttl), 4, 7)
  {
  }

  lemma CallsOfVelero(ttl: Time)
    ensures CallsBut(Velero(ttl), 2, 4)
  {
  }

  /** A program that makes one thing under a name chosen before. */
  lemma NamedFirst(cfg: Config, events: seq<Event>, states: seq<State>, create: nat, arm: nat)
    requires Solo(events) && Trace(cfg, events, states) && |events| == arm + 1 <= |cfg.program| && Initial(states[0])
    requires 1 < create < arm - 1 && cfg.program[1].op == Reserve(First)
    requires cfg.program[create].op == Create(First, false) && cfg.program[arm].op == Arm
    requires CallsBut(cfg, create, arm)
    ensures var s0, s, id := states[0], states[arm + 1], events[1].id;
            && id !in s0.o.w && s.handles == map[First := id] && s.main == At(arm + 1) && s.watch.Armed?
            && s.o.w == s0.o.w[id := NewResource(cfg, First, s0.o.now, map[First := id])]
  {
    CallsOnly(cfg, events, states, 0, 1);
    Reserved(cfg, events, states, 1, First);
    if 2 < create {
      CallsOnly(cfg, events, states, 2, create);
    }
    var id := Created(cfg, events, states, create, First, false);
    CallsOnly(cfg, events, states, create + 1, arm);
    Arms(cfg, events, states, arm);
    assert map[First := id][First := id] == map[First := id];
  }

  lemma NamedFirstRun(cfg: Config, s0: State, events: seq<Event>, create: nat, arm: nat)
    requires Initial(s0) && Solo(events) && |events| == arm + 1 <= |cfg.program| && Run(cfg, s0, events).Some?
    requires 1 < create < arm - 1 && cfg.program[1].op == Reserve(First)
    requires cfg.program[create].op == Create(First, false) && cfg.program[arm].op == Arm
    requires CallsBut(cfg, create, arm)
    ensures var s, id := Run(cfg, s0, events).value, events[1].id;
            && id !in s0.o.w && s.handles == map[First := id] && s.main == At(arm + 1) && s.watch.Armed?
            && s.o.w == s0.o.w[id := NewResource(cfg, First, s0.o.now, map[First := id])]
  {
    var states := TraceOf(cfg, s0, events);
    NamedFirst(cfg, events, states, create, arm);
  }

  /** Kubernetes: the world of a successful ProvisionPod. */
  lemma KubernetesSoloRun(ttl: Time, s0: State, events: seq<Event>)
    requires Initial(s0) && Solo(events) && |events| == 8 && Run(Kubernetes(ttl), s0, events).Some?
    ensures var s, p := Run(Kubernetes(ttl), s0, events).value, events[1].id;
            && p !in s0.o.w && s.handles == map[First := p] && s.main == At(8) && s.watch.Armed?
            && s.o.w == s0.o.w[p := PodOf(s0.o.now, ttl)]
  {
    CallsOfKubernetes(ttl);
    NamedFirstRun(Kubernetes(ttl), s0, events, 4, 7);
  }

  /** Velero: the world of a successful PrepareVelero. */
  lemma VeleroSoloRun(ttl: Time, s0: State, events: seq<Event>)
    requires Initial(s0) && Solo(events) && |events| == 5 && Run(Velero(ttl), s0, events).Some?
    ensures var s, ns := Run(Velero(ttl), s0, events).value, events[1].id;
            && ns !in s0.o.w && s.handles == map[First := ns] && s.main == At(5) && s.watch.Armed?
            && s.o.w == s0.o.w[ns := NamespaceOf(s0.o.now, ttl)]
  {
    CallsOfVelero(ttl);
    NamedFirstRun(Velero(ttl), s0, events, 2, 4);
  }
}
