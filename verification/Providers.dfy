/** The three kinds of drill, each as the requests its code makes in order and what it does when one fails. */
module Providers {
  import opened Clock
  import opened Wrappers
  import opened Resources
  import opened DrillRun
  import opened DrillSafety
  import opened DrillExact

  /** A container on a network of its own. Both ids are known only from the daemon's replies. */
  function Docker(ttl: Time): Config {
    Config(Container, Network, ttl,
      [ Instr(Call, Bail),                      // ping
        Instr(Create(Second, true), Bail),      // network
        Instr(Call, Cleanup),                   // pull
        Instr(Create(First, true), Cleanup),    // container
        Instr(Start(First), Cleanup),
        Instr(Call, Cleanup),                   // wait until ready
        Instr(Call, Cleanup),                   // inspect
        Instr(Arm, Proceed),
        Instr(Call, Proceed),                   // restore
        Instr(Call, Abort),                     // connect for verification
        Instr(Call, Proceed) ])                 // verify
  }

  /** A pod in a shared namespace. Its name is chosen before anything is requested. */
  function Kubernetes(ttl: Time): Config {
    Config(Pod, Pod, ttl,
      [ Instr(Call, Bail),                      // client configuration
        Instr(Reserve(First), Bail),
        Instr(Call, Cleanup),                   // shared namespace
        Instr(Call, Cleanup),                   // deny-egress policy
        Instr(Create(First, false), Cleanup),   // pod
        Instr(Call, Cleanup),                   // wait until ready
        Instr(Call, Cleanup),                   // pod address or port-forward
        Instr(Arm, Proceed),
        Instr(Call, Proceed),                   // restore
        Instr(Call, Abort),                     // connect for verification
        Instr(Call, Proceed) ])                 // verify
  }

  /** An ephemeral namespace, and a Restore object that is named and created while the watchdog runs. */
  function Velero(ttl: Time): Config {
    Config(Namespace, Restore, ttl,
      [ Instr(Call, Bail),                      // read the Backup
        Instr(Reserve(First), Bail),
        Instr(Create(First, false), Bail),      // namespace
        Instr(Call, Cleanup),                   // deny-egress policy
        Instr(Arm, Proceed),
        Instr(Reserve(Second), Proceed),
        Instr(Create(Second, false), Proceed),  // Restore object
        Instr(Call, Proceed),                   // wait for a terminal phase
        Instr(Call, Proceed) ])                 // verify
  }

  /** A program's shape by the positions of its instructions: where it arms the watchdog, where it fixes each id, and
      up to where it still gives up without a cleanup. */
  lemma ShapeByPosition(cfg: Config, arm: nat, lastBail: nat, at: map<Slot, nat>)
    requires var p := cfg.program;
      && (forall i :: 0 <= i < |p| && p[i].op.Arm? ==> i == arm)
      && (forall i :: 0 <= i < |p| && p[i].onFail.Bail? ==> i <= lastBail < arm)
      && (forall i :: 0 <= i < |p| && p[i].onFail.Cleanup? ==> i < arm)
      && (forall i :: 0 <= i < |p| && p[i].op.Create? ==> i >= lastBail)
      && (forall i :: 0 <= i < |p| && p[i].op.Create? && p[i].op.learned ==> p[i].onFail.Bail? || p[i].onFail.Cleanup?)
      && (forall i, slot :: 0 <= i < |p| && Assigns(p[i], slot) ==> slot in at && i == at[slot])
    ensures WellFormed(cfg)
    ensures forall slot :: slot !in at || at[slot] < arm ==> Early(cfg, slot)
  {
    forall i, j, slot | 0 <= i < j < |cfg.program| && Assigns(cfg.program[i], slot)
        ensures !Assigns(cfg.program[j], slot) {
      assert i == at[slot];
    }
  }

  lemma DockerShape(ttl: Time)
    ensures WellFormed(Docker(ttl)) && Settled(Docker(ttl)) && !NamesFirst(Docker(ttl))
  {
    var p := Docker(ttl).program;
    assert forall i :: 0 <= i < |p| ==> (p[i].op.Create? <==> i == 1 || i == 3);
    assert forall i :: 0 <= i < |p| && p[i].op.Arm? ==> i == 7;
    ShapeByPosition(Docker(ttl), 7, 1, map[First := 3, Second := 1]);
    assert p[1].op == Create(Second, true);
  }

  lemma KubernetesShape(ttl: Time)
    ensures WellFormed(Kubernetes(ttl)) && Settled(Kubernetes(ttl)) && NamesFirst(Kubernetes(ttl))
  {
    var p := Kubernetes(ttl).program;
    assert forall i :: 0 <= i < |p| ==> (p[i].op.Create? <==> i == 4);
    assert forall i :: 0 <= i < |p| && p[i].op.Arm? ==> i == 7;
    ShapeByPosition(Kubernetes(ttl), 7, 1, map[First := 1]);
  }

  lemma VeleroShape(ttl: Time)
    ensures WellFormed(Velero(ttl)) && Early(Velero(ttl), First) && MadeEarly(Velero(ttl), First)
    ensures !Settled(Velero(ttl))
  {
    var p := Velero(ttl).program;
    assert forall i :: 0 <= i < |p| ==> (p[i].op.Create? && p[i].op.slot.First? <==> i == 2);
    ShapeByPosition(Velero(ttl), 4, 2, map[First := 1, Second := 5]);
    assert p[4].op.Arm? && Assigns(p[5], Second);
  }

  /** Docker and Kubernetes: a record that says "destroyed" is simply true. */
  lemma DestroyedSandboxIsGone(cfg: Config, ttl: Time, s: State)
    requires cfg == Docker(ttl) || cfg == Kubernetes(ttl)
    requires Reachable(cfg, s) && s.written == Some(true)
    ensures forall id <- s.o.mine :: Gone(s.o.w, id)
  {
    DockerShape(ttl);
    KubernetesShape(ttl);
    DestroyedMeansGone(cfg, s);
  }

  /** Velero: it is true of the namespace, always. The Restore object outlives it exactly when it was created after
      teardown had passed it and nobody else removed it. */
  lemma DestroyedNamespaceIsGone(ttl: Time, s0: State, events: seq<Event>)
    requires Initial(s0) && Run(Velero(ttl), s0, events).Some?
        && Run(Velero(ttl), s0, events).value.written == Some(true)
    ensures var s, late := Run(Velero(ttl), s0, events).value, LateCreations(Velero(ttl), s0, events);
            && (First in s.handles ==> Gone(s.o.w, s.handles[First]))
            && (Second in s.handles && !Gone(s.o.w, s.handles[Second]) ==> s.handles[Second] in late)
            && (Quiet(events) ==> forall id :: id in s.o.mine && !Gone(s.o.w, id) <==> id in late)
  {
    var s := Run(Velero(ttl), s0, events).value;
    assert Reachable(Velero(ttl), s);
    VeleroShape(ttl);
    DestroyedMeansGone(Velero(ttl), s);
    ReachableInv(Velero(ttl), s);
    DestroyedLeavesExactly(Velero(ttl), s0, events);
  }

  /** Kubernetes: whichever request of Provision fails, and whether or not the failed one took effect, the
      cleanup leaves no pod, provided its own request succeeds. */
  lemma FailedPodProvisionLeavesNothing(ttl: Time, s: State)
    requires Reachable(Kubernetes(ttl), s) && Ok(s.t.removals)
    requires s.main == Ended(Bailed) || s.main == Ended(Unprovisioned)
    ensures s.watch.Off? && forall id <- s.o.mine :: Gone(s.o.w, id)
  {
    KubernetesShape(ttl);
    FailedProvisioningLeavesOrphansOnly(Kubernetes(ttl), s);
  }

  /** Docker and Velero: the same exactly when no creation's reply was lost that mattered; what is left otherwise is
      what those creations made. */
  lemma FailedProvisionLeavesNothing(cfg: Config, ttl: Time, s0: State, events: seq<Event>)
    requires cfg == Docker(ttl) || cfg == Velero(ttl)
    requires Initial(s0) && Run(cfg, s0, events).Some?
    requires var s := Run(cfg, s0, events).value;
             Ok(s.t.removals) && (s.main == Ended(Bailed) || s.main == Ended(Unprovisioned))
    ensures var s, lost := Run(cfg, s0, events).value, LostCreations(cfg, s0, events);
            && s.watch.Off?
            && (lost == {} ==> forall id <- s.o.mine :: Gone(s.o.w, id))
            && (Quiet(events) ==> forall id :: id in s.o.mine && !Gone(s.o.w, id) <==> id in lost)
            && (Quiet(events) ==> (lost == {} <==> forall id <- s.o.mine :: Gone(s.o.w, id)))
  {
    DockerShape(ttl);
    VeleroShape(ttl);
    var s := Run(cfg, s0, events).value;
    assert Reachable(cfg, s);
    FailedProvisioningLeavesOrphansOnly(cfg, s);
    FailedProvisioningLeavesExactly(cfg, s0, events);
  }

  /** Every removal request of the run was granted. */
  predicate RemovalsGranted(cfg: Config, s0: State, events: seq<Event>)
    requires Run(cfg, s0, events).Some?
  {
    events != [] ==>
      var init, e := events[..|events| - 1], events[|events| - 1];
      var s := Run(cfg, s0, init).value;
      RemovalsGranted(cfg, s0, init) && forall slot :: Requests(s, e, slot) ==> FateOf(e) == Granted
  }

  lemma {:induction false} GrantedRemovalsSucceed(cfg: Config, s0: State, events: seq<Event>)
    requires (cfg.first == Pod && cfg.second == Pod) || (cfg.first == Namespace && cfg.second == Restore)
    requires Run(cfg, s0, events).Some? && RemovalsGranted(cfg, s0, events)
    ensures !SomeRemovalFails(cfg, s0, events)
  {
    if events != [] {
      GrantedRemovalsSucceed(cfg, s0, events[..|events| - 1]);
    }
  }

  /** Kubernetes and Velero: a teardown whose requests were all granted counts as a success, whatever the environment
      removed before it. */
  lemma GrantedTeardownSucceeds(cfg: Config, ttl: Time, s0: State, events: seq<Event>)
    requires cfg == Kubernetes(ttl) || cfg == Velero(ttl)
    requires Initial(s0) && Run(cfg, s0, events).Some? && Run(cfg, s0, events).value.t.once.Done?
    requires RemovalsGranted(cfg, s0, events)
    ensures Run(cfg, s0, events).value.t.destroyed
  {
    KubernetesShape(ttl);
    VeleroShape(ttl);
    GrantedRemovalsSucceed(cfg, s0, events);
    DestroyedExactly(cfg, s0, events);
  }

  /** A removal the Docker daemon does not count: refused, reply lost, resource absent, or network in use. */
  predicate DockerFails(s: State, e: Event, slot: Slot) {
    Requests(s, e, slot) &&
    var id := s.handles[slot];
    (FateOf(e) != Granted || id !in s.o.w ||
     (slot == Second &&
        exists c <- s.o.w :: s.o.w[c].kind == Container && s.o.w[c].running && s.o.w[c].network == Some(id)))
  }

  predicate SomeDockerRemovalFails(cfg: Config, s0: State, events: seq<Event>)
    requires Run(cfg, s0, events).Some?
  {
    events != [] &&
    var init, e := events[..|events| - 1], events[|events| - 1];
    var s := Run(cfg, s0, init).value;
    SomeDockerRemovalFails(cfg, s0, init) || DockerFails(s, e, First) || DockerFails(s, e, Second)
  }

  lemma {:induction false} DockerFailures(cfg: Config, s0: State, events: seq<Event>)
    requires cfg.first == Container && cfg.second == Network && Run(cfg, s0, events).Some?
    ensures SomeRemovalFails(cfg, s0, events) <==> SomeDockerRemovalFails(cfg, s0, events)
  {
    if events != [] {
      var init, e := events[..|events| - 1], events[|events| - 1];
      var s := Run(cfg, s0, init).value;
      DockerFailures(cfg, s0, init);
      DockerFailsMeans(cfg, s, e, First);
      DockerFailsMeans(cfg, s, e, Second);
    }
  }

  lemma DockerFailsMeans(cfg: Config, s: State, e: Event, slot: Slot)
    requires cfg.first == Container && cfg.second == Network
    ensures DockerFails(s, e, slot) <==> FailsToRemove(cfg, s, e, slot)
  {
  }

  /** Docker: a teardown fails exactly when some removal was refused, or lost, or found its resource gone or in use. */
  lemma DockerTeardownFails(ttl: Time, s0: State, events: seq<Event>)
    requires Initial(s0) && Run(Docker(ttl), s0, events).Some? && Run(Docker(ttl), s0, events).value.t.once.Done?
    ensures !Run(Docker(ttl), s0, events).value.t.destroyed <==> SomeDockerRemovalFails(Docker(ttl), s0, events)
  {
    DockerShape(ttl);
    DestroyedExactly(Docker(ttl), s0, events);
    DockerFailures(Docker(ttl), s0, events);
  }

  lemma Reaches(cfg: Config, s: State, e: Event, s': State)
    requires Reachable(cfg, s) && Next(cfg, s, e) == Some(s')
    ensures Reachable(cfg, s')
  {
    var s0, events :| Initial(s0) && Run(cfg, s0, events) == Some(s);
    assert (events + [e])[..|events|] == events;
    assert Run(cfg, s0, events + [e]) == Some(s');
  }

  lemma Starts(cfg: Config, s: State)
    requires Initial(s)
    ensures Reachable(cfg, s)
  {
    assert Run(cfg, s, []) == Some(s);
  }

  const FRESH := Teardown(Fresh, false, false, false, [])

  /** A thread that holds the once can always run the next stage of its body. */
  lemma RunsOn(cfg: Config, s: State, s': State)
    requires Reachable(cfg, s) && s.t.once.Running? && s' == Body(cfg, s, Granted)
    requires if s.t.once.holder.Main? then s.main.InDestroy? else s.watch.Destroying?
    ensures Reachable(cfg, s')
  {
    Reaches(cfg, s, if s.t.once.holder.Main? then MainStep(Granted, 0) else WatchStep(true, Granted), s');
  }

  const NOTHING := Outside(map[], 0, {}, {}, {})
  const START := State(NOTHING, map[], At(0), Off, FRESH, false, None)

  lemma DockerMakesNetwork(ttl: Time, net: Resource) returns (s: State)
    requires net == Resource(Network, true, None, 0, None, false, false)
    ensures Reachable(Docker(ttl), s)
    ensures s == State(Outside(map[0 := net], 0, {0}, {}, {}), map[Second := 0], At(2), Off, FRESH, false, None)
  {
    var cfg, go := Docker(ttl), MainStep(Granted, 0);
    Starts(cfg, START);
    var s1 := START.(main := At(1));
    Reaches(cfg, START, go, s1);
    assert cfg.program[1] == Instr(Create(Second, true), Bail);
    s := Next(cfg, s1, go).value;
    Reaches(cfg, s1, go, s);
  }

  lemma DockerLosesContainer(ttl: Time, s2: State, ctr: Resource) returns (s: State)
    requires Reachable(Docker(ttl), s2) && s2.main == At(2) && s2.t == FRESH && s2.handles == map[Second := 0]
    requires s2.o.now == 0 && s2.o.orphans == s2.o.late == {} && Unused(s2.o, 1)
    requires ctr == Resource(Container, true, Some(WholeSeconds(ttl)), 0, Some(0), false, false)
    ensures Reachable(Docker(ttl), s) && s.main == InDestroy(FailedProvision) && s.t == FRESH && s.handles == s2.handles
    ensures s.o == Outside(s2.o.w[1 := ctr], 0, s2.o.mine + {1}, {1}, {})
  {
    var cfg, go := Docker(ttl), MainStep(Granted, 0);
    var s3 := s2.(main := At(3));
    Reaches(cfg, s2, go, s3);
    assert cfg.program[3] == Instr(Create(First, true), Cleanup);
    s := Next(cfg, s3, MainStep(Lost, 1)).value;
    Reaches(cfg, s3, MainStep(Lost, 1), s);
  }

  /** It can happen. The daemon makes the container but the reply is lost: every removal that
      follows succeeds, and the container stays. */
  lemma DockerCanLeaveAContainer(ttl: Time) returns (s: State)
    ensures Reachable(Docker(ttl), s) && s.main == Ended(Unprovisioned) && Ok(s.t.removals)
    ensures 1 in s.o.mine && !Gone(s.o.w, 1)
  {
    var net := Resource(Network, true, None, 0, None, false, false);
    var ctr := Resource(Container, true, Some(WholeSeconds(ttl)), 0, Some(0), false, false);
    var s2 := DockerMakesNetwork(ttl, net);
    var s4 := DockerLosesContainer(ttl, s2, ctr);
    assert s2.o.w[1 := ctr] == map[0 := net, 1 := ctr];
    s := LostContainerStays(Docker(ttl), s4, net, ctr);
  }

  lemma LostContainerStays(cfg: Config, s4: State, net: Resource, ctr: Resource) returns (s: State)
    requires cfg.second == Network && net.kind == Network && !ctr.running && !ctr.terminating
    requires Reachable(cfg, s4) && s4.o == Outside(map[0 := net, 1 := ctr], 0, {0, 1}, {1}, {})
    requires s4.handles == map[Second := 0] && s4.main == InDestroy(FailedProvision) && s4.t == FRESH
    ensures Reachable(cfg, s) && s.main == Ended(Unprovisioned) && Ok(s.t.removals)
    ensures 1 in s.o.mine && !Gone(s.o.w, 1)
  {
    var go := MainStep(Granted, 0);
    var s5 := s4.(t := FRESH.(once := Running(Main, Cancel)));
    Reaches(cfg, s4, go, s5);
    var s6 := s5.(t := s5.t.(cancelled := true, once := Running(Main, Remove(First))));
    RunsOn(cfg, s5, s6);
    var s7 := s6.(t := s6.t.(once := Running(Main, Remove(Second))));
    RunsOn(cfg, s6, s7);
    s := NetworkGoesContainerStays(cfg, s7, net, ctr);
  }

  lemma NetworkGoesContainerStays(cfg: Config, s7: State, net: Resource, ctr: Resource) returns (s: State)
    requires cfg.second == Network && net.kind == Network && !ctr.running && !ctr.terminating
    requires Reachable(cfg, s7) && s7.o == Outside(map[0 := net, 1 := ctr], 0, {0, 1}, {1}, {})
    requires s7.handles == map[Second := 0] && s7.main == InDestroy(FailedProvision)
    requires s7.t == Teardown(Running(Main, Remove(Second)), true, false, false, [])
    ensures Reachable(cfg, s) && s.main == Ended(Unprovisioned) && Ok(s.t.removals)
    ensures 1 in s.o.mine && !Gone(s.o.w, 1)
  {
    var go := MainStep(Granted, 0);
    var t8 := s7.t.(once := Running(Main, Store), removals := [Removal(Second, true)]);
    var s8 := s7.(o := s7.o.(w := map[1 := ctr]), t := t8);
    assert s7.o.w - {0} == map[1 := ctr];
    RunsOn(cfg, s7, s8);
    var s9 := s8.(t := s8.t.(destroyed := true, once := Done));
    RunsOn(cfg, s8, s9);
    s := s9.(main := Ended(Unprovisioned));
    Reaches(cfg, s9, go, s);
  }

  lemma VeleroMakesNamespace(ttl: Time, ns: Resource) returns (s: State)
    requires ns == Resource(Namespace, true, Some(WholeSeconds(ttl)), 0, None, false, false)
    ensures Reachable(Velero(ttl), s)
    ensures s == State(Outside(map[0 := ns], 0, {0}, {}, {}), map[First := 0], At(3), Off, FRESH, false, None)
  {
    var cfg, go := Velero(ttl), MainStep(Granted, 0);
    Starts(cfg, START);
    var s1 := START.(main := At(1));
    Reaches(cfg, START, go, s1);
    var s2 := START.(main := At(2), o := NOTHING.(mine := {0}), handles := map[First := 0]);
    assert cfg.program[1] == Instr(Reserve(First), Bail) && NOTHING.mine + {0} == {0};
    Reaches(cfg, s1, go, s2);
    assert cfg.program[2] == Instr(Create(First, false), Bail) && s2.handles[First := 0] == s2.handles;
    s := Next(cfg, s2, go).value;
    Reaches(cfg, s2, go, s);
  }

  /** An undisturbed restore, up to the wait for its end. */
  lemma VeleroMakesRestore(ttl: Time, ns: Resource) returns (s: State)
    requires ns == Resource(Namespace, true, Some(WholeSeconds(ttl)), 0, None, false, false)
    ensures Reachable(Velero(ttl), s) && s.main == At(7) && s.handles == map[First := 0, Second := 1]
    ensures s.o == Outside(map[0 := ns, 1 := Resource(Restore, true, None, 0, None, false, false)], 0, {0, 1}, {}, {})
  {
    var cfg, go := Velero(ttl), MainStep(Granted, 1);
    var s3 := VeleroMakesNamespace(ttl, ns);
    var s4 := s3.(main := At(4));
    Reaches(cfg, s3, go, s4);
    var s5 := s4.(main := At(5), watch := Armed);
    Reaches(cfg, s4, go, s5);
    s := RestoreFollows(ttl, s5, ns);
  }

  lemma RestoreFollows(ttl: Time, s5: State, ns: Resource) returns (s: State)
    requires Reachable(Velero(ttl), s5) && s5.main == At(5) && s5.handles == map[First := 0] && s5.t == FRESH
    requires s5.o == Outside(map[0 := ns], 0, {0}, {}, {})
    ensures Reachable(Velero(ttl), s) && s.main == At(7) && s.handles == map[First := 0, Second := 1]
    ensures s.o == Outside(map[0 := ns, 1 := Resource(Restore, true, None, 0, None, false, false)], 0, {0, 1}, {}, {})
  {
    var cfg, go := Velero(ttl), MainStep(Granted, 1);
    assert cfg.program[5] == Instr(Reserve(Second), Proceed) && cfg.program[6] == Instr(Create(Second, false), Proceed);
    var s6 := s5.(main := At(6), handles := map[First := 0, Second := 1], o := s5.o.(mine := {0, 1}));
    assert {0} + {1} == {0, 1} && s5.handles[Second := 1] == s6.handles;
    Reaches(cfg, s5, go, s6);
    s := Next(cfg, s6, go).value;
    Reaches(cfg, s6, go, s);
    assert s6.handles[Second := 1] == s6.handles && {0, 1} + {1} == {0, 1};
  }

  /** Velero: the record can say "destroyed" while a Restore object stays behind. The watchdog runs the whole
      teardown before the main thread has named the object, which is then created, and outlives the drill. */
  lemma VeleroCanOutliveItsRecord(ttl: Time) returns (s: State)
    ensures Reachable(Velero(ttl), s) && s.main == Ended(Finished) && s.written == Some(true)
    ensures 1 in s.o.late && !Gone(s.o.w, 1) && s.o.w[1].kind == Restore
  {
    var cfg, go := Velero(ttl), MainStep(Granted, 0);
    var ns := Resource(Namespace, true, Some(WholeSeconds(ttl)), 0, None, false, false);
    var s3 := VeleroMakesNamespace(ttl, ns);
    var s4 := s3.(main := At(4));
    Reaches(cfg, s3, go, s4);
    var s5 := s4.(main := At(5), watch := Armed);
    Reaches(cfg, s4, go, s5);
    var s6 := s5.(watch := Destroying);
    Reaches(cfg, s5, WatchStep(true, Granted), s6);
    s := LateRestoreStays(ttl, s6, ns);
  }

  lemma LateRestoreStays(ttl: Time, s6: State, ns: Resource) returns (s: State)
    requires ns.kind == Namespace
    requires Reachable(Velero(ttl), s6) && s6.o == Outside(map[0 := ns], 0, {0}, {}, {})
    requires s6.handles == map[First := 0] && s6.main == At(5) && s6.watch == Destroying && s6.t == FRESH
    ensures Reachable(Velero(ttl), s) && s.main == Ended(Finished) && s.written == Some(true)
    ensures 1 in s.o.late && !Gone(s.o.w, 1) && s.o.w[1].kind == Restore
  {
    var cfg := Velero(ttl);
    var s7 := s6.(t := FRESH.(once := Running(Watchdog, Cancel)));
    Reaches(cfg, s6, WatchStep(true, Granted), s7);
    var s8 := s7.(t := s7.t.(cancelled := true, once := Running(Watchdog, Remove(First))));
    RunsOn(cfg, s7, s8);
    var w := map[0 := ns.(terminating := true)];
    assert s8.o.w[0 := ns.(terminating := true)] == w;
    var t9 := s8.t.(once := Running(Watchdog, Remove(Second)), removals := [Removal(First, true)]);
    var s9 := s8.(o := s8.o.(w := w), t := t9);
    RunsOn(cfg, s8, s9);
    var s10 := s9.(t := s9.t.(once := Running(Watchdog, Store)));
    RunsOn(cfg, s9, s10);
    var s11 := s10.(t := s10.t.(destroyed := true, once := Done));
    RunsOn(cfg, s10, s11);
    s := RestoreIsMade(ttl, s11);
  }

  lemma RestoreIsMade(ttl: Time, s11: State) returns (s: State)
    requires Reachable(Velero(ttl), s11) && s11.o.mine == {0} && s11.o.w.Keys == {0} && s11.handles == map[First := 0]
    requires s11.main == At(5) && s11.t.once == Done && s11.t.destroyed
    ensures Reachable(Velero(ttl), s) && s.main == Ended(Finished) && s.written == Some(true)
    ensures 1 in s.o.late && !Gone(s.o.w, 1) && s.o.w[1].kind == Restore
  {
    var cfg, go := Velero(ttl), MainStep(Granted, 1);
    var s12 := Next(cfg, s11, go).value;
    Reaches(cfg, s11, go, s12);
    assert s12.main == At(6) && s12.handles[Second] == 1 && s12.o.w == s11.o.w && s12.t == s11.t;
    var s13 := Next(cfg, s12, go).value;
    Reaches(cfg, s12, go, s13);
    assert s13.main == At(7) && 1 in s13.o.late && s13.t == s11.t;
    s := FinishesDestroyed(ttl, s13);
  }

  lemma FinishesDestroyed(ttl: Time, s13: State) returns (s: State)
    requires Reachable(Velero(ttl), s13) && s13.main == At(7) && s13.t.once == Done && s13.t.destroyed
    ensures Reachable(Velero(ttl), s) && s.main == Ended(Finished) && s.written == Some(true) && s.o == s13.o
  {
    var cfg, go := Velero(ttl), MainStep(Granted, 1);
    var s14 := s13.(main := At(8));
    Reaches(cfg, s13, go, s14);
    var s15 := s14.(main := At(9));
    Reaches(cfg, s14, go, s15);
    var s16 := s15.(main := InDestroy(BeforeEvidence));
    Reaches(cfg, s15, go, s16);
    var s17 := s16.(reported := true, main := Writing);
    Reaches(cfg, s16, go, s17);
    var s18 := s17.(written := Some(true), main := InDestroy(Deferred));
    Reaches(cfg, s17, go, s18);
    s := s18.(main := Ended(Finished));
    Reaches(cfg, s18, go, s);
  }
}
