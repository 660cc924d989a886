/** The sandbox objects themselves, run by one thread: provisioning with its cleanup, and Destroy. The Docker
    daemon and the API server are one object that decides the fate of every request. */
module Sandboxes {
  import opened Clock
  import opened Wrappers
  import opened Resources
  import DrillRun

  class Server {
    var w: World
    var now: Time
    var nextId: Id
    var calls: nat
    const fate: nat -> Fate

    constructor (w: World, now: Time, nextId: Id, fate: nat -> Fate)
      ensures this.w == w && this.now == now && this.nextId == nextId && this.calls == 0 && this.fate == fate
    {
      this.w, this.now, this.nextId, this.calls, this.fate := w, now, nextId, 0, fate;
    }

    /** Ids and generated names are new: nothing carries or mentions one that was not handed out. */
    ghost predicate Valid()
      reads this
    {
      forall id <- w :: id < nextId && (w[id].network.Some? ==> w[id].network.value < nextId)
    }

    method NewId() returns (id: Id)
      modifies this`nextId
      ensures id == old(nextId) && nextId == old(nextId) + 1
    {
      id := nextId;
      nextId := nextId + 1;
    }

    /** A request that makes nothing of the drill's own. */
    method Call() returns (ok: bool)
      modifies this`calls
      ensures calls == old(calls) + 1 && ok == fate(old(calls)).Granted?
    {
      ok := fate(calls).Granted?;
      calls := calls + 1;
    }

    method Create(id: Id, r: Resource) returns (ok: bool)
      modifies this`calls, this`w
      ensures calls == old(calls) + 1 && ok == fate(old(calls)).Granted?
      ensures w == if fate(old(calls)).Refused? then old(w) else old(w)[id := r]
    {
      ok := fate(calls).Granted?;
      if !fate(calls).Refused? {
        w := w[id := r];
      }
      calls := calls + 1;
    }

    method Start(id: Id) returns (ok: bool)
      requires id in w
      modifies this`calls, this`w
      ensures calls == old(calls) + 1 && ok == fate(old(calls)).Granted?
      ensures w == if fate(old(calls)).Refused? then old(w) else old(w)[id := old(w)[id].(running := true)]
    {
      ok := fate(calls).Granted?;
      if !fate(calls).Refused? {
        w := w[id := w[id].(running := true)];
      }
      calls := calls + 1;
    }

    /** Removes what was made; a resource that was never made is not asked for. */
    method TryRemove(kind: Kind, id: Option<Id>) returns (ok: bool)
      modifies this`calls, this`w
      ensures calls == old(calls) + if id.Some? then 1 else 0
      ensures (w, ok) == if id.Some? then Delete(old(w), kind, id.value, fate(old(calls))) else (old(w), true)
    {
      ok := true;
      if id.Some? {
        ok := Remove(kind, id.value);
      }
    }

    method Remove(kind: Kind, id: Id) returns (ok: bool)
      modifies this`calls, this`w
      ensures calls == old(calls) + 1 && (w, ok) == Delete(old(w), kind, id, fate(old(calls)))
    {
      var (w', r) := Delete(w, kind, id, fate(calls));
      w, ok, calls := w', r, calls + 1;
    }
  }

  /** What removing two resources in turn leaves, and whether both removals succeeded. The second is tried
      whatever became of the first; a resource that was never made is not asked for. */
  function TearDown(w: World, first: Kind, firstId: Option<Id>, second: Kind, secondId: Option<Id>, f1: Fate, f2: Fate)
    : (World, bool)
  {
    var (w1, ok1) := if firstId.Some? then Delete(w, first, firstId.value, f1) else (w, true);
    var (w2, ok2) := if secondId.Some? then Delete(w1, second, secondId.value, f2) else (w1, true);
    (w2, ok1 && ok2)
  }

  function AfterFirst(w: World, first: Kind, firstId: Option<Id>, f1: Fate): World {
    if firstId.Some? then Delete(w, first, firstId.value, f1).0 else w
  }

  predicate BothSucceed(w: World, first: Kind, firstId: Option<Id>, second: Kind, secondId: Option<Id>,
                        f1: Fate, f2: Fate) {
    && (firstId.Some? ==> Succeeds(w, first, firstId.value, f1))
    && (secondId.Some? ==> Succeeds(AfterFirst(w, first, firstId, f1), second, secondId.value, f2))
  }

  lemma RemovalsSucceed(w: World, first: Kind, firstId: Option<Id>, second: Kind, secondId: Option<Id>,
                        f1: Fate, f2: Fate)
    ensures TearDown(w, first, firstId, second, secondId, f1, f2).1 <==>
      BothSucceed(w, first, firstId, second, secondId, f1, f2)
  {
    if firstId.Some? {
      DeleteMeans(w, first, firstId.value, f1);
    }
    if secondId.Some? {
      DeleteMeans(AfterFirst(w, first, firstId, f1), second, secondId.value, f2);
    }
  }

  /** A resource that is gone already: the API server's deletes take it for removed, the Docker daemon's do not. */
  lemma GoneAlready(w: World, kind: Kind, id: Id)
    requires id !in w
    ensures TearDown(w, kind, Some(id), kind, None, Granted, Granted) ==
      (w, match kind case Container => false case Network => false case _ => true)
  {
  }

  /** `armed`: the watchdog has been started; `cancelled`: it has been told to stop; `forwarding`: a port-forward to the
      pod is open. */
  class Sandbox {
    const first: Kind
    const second: Kind
    var firstId: Option<Id>
    var secondId: Option<Id>
    var once: bool
    var armed: bool
    var cancelled: bool
    var forwarding: bool
    var destroyErr: bool
    var destroyed: bool

    constructor (first: Kind, second: Kind)
      ensures this.first == first && this.second == second && firstId == None && secondId == None
      ensures !once && !armed && !cancelled && !forwarding && !destroyErr && !destroyed
    {
      this.first, this.second := first, second;
      firstId, secondId := None, None;
      once, armed, cancelled, forwarding, destroyErr, destroyed := false, false, false, false, false, false;
    }

    /** Asks for both removals, whatever becomes of the first. */
    method RemoveBoth(server: Server) returns (ok: bool)
      modifies server`calls, server`w
      ensures var f1 := server.fate(old(server.calls));
        var f2 := server.fate(old(server.calls) + if firstId.Some? then 1 else 0);
        && (server.w, ok) == TearDown(old(server.w), first, firstId, second, secondId, f1, f2)
        && (ok <==> BothSucceed(old(server.w), first, firstId, second, secondId, f1, f2))
      ensures server.calls ==
        old(server.calls) + (if firstId.Some? then 1 else 0) + (if secondId.Some? then 1 else 0)
    {
      ghost var w, f1 := server.w, server.fate(server.calls);
      ghost var f2 := server.fate(server.calls + if firstId.Some? then 1 else 0);
      var ok1 := server.TryRemove(first, firstId);
      var ok2 := server.TryRemove(second, secondId);
      ok := ok1 && ok2;
      RemovalsSucceed(w, first, firstId, second, secondId, f1, f2);
    }

    /** Idempotent: the body runs on the first call only, and later calls report what it found. */
    method Destroy(server: Server) returns (failed: bool)
      modifies this`once, this`cancelled, this`forwarding, this`destroyErr, this`destroyed, server`calls, server`w
      requires !once ==> !destroyErr && !destroyed
      ensures once && failed == destroyErr
      ensures old(once) ==> server.w == old(server.w) && server.calls == old(server.calls)
      ensures old(once) ==> destroyErr == old(destroyErr) && destroyed == old(destroyed)
      ensures old(once) ==> cancelled == old(cancelled) && forwarding == old(forwarding)
      ensures !old(once) ==> !forwarding && (armed ==> cancelled)
      ensures !old(once) ==>
        var f1 := server.fate(old(server.calls));
        var f2 := server.fate(old(server.calls) + if firstId.Some? then 1 else 0);
        && (server.w, destroyed) == TearDown(old(server.w), first, firstId, second, secondId, f1, f2)
        && destroyErr == !destroyed
        && (destroyed <==> BothSucceed(old(server.w), first, firstId, second, secondId, f1, f2))
        && server.calls == old(server.calls) + (if firstId.Some? then 1 else 0) + (if secondId.Some? then 1 else 0)
    {
      if !once {
        if armed {
          cancelled := true;
        }
        if forwarding {
          forwarding := false;
        }
        var ok := RemoveBoth(server);
        destroyErr := !ok;
        destroyed := !destroyErr;
        once := true;
      }
      failed := destroyErr;
    }
  }

  function Handle(s: DrillRun.State, slot: DrillRun.Slot): Option<Id> {
    if slot in s.handles then Some(s.handles[slot]) else None
  }

  /** Each stage of the body in the interleaved model is one removal of this teardown. */
  lemma StageIsRemoval(cfg: DrillRun.Config, s: DrillRun.State, slot: DrillRun.Slot, fate: Fate)
    requires s.t.once.Running? && s.t.once.stage == DrillRun.Remove(slot)
    ensures var s' := DrillRun.Body(cfg, s, fate);
            && s'.handles == s.handles && s'.t.once.Running? && s'.t.once.holder == s.t.once.holder
            && s'.t.once.stage == (if slot.First? then DrillRun.Remove(DrillRun.Second) else DrillRun.Store)
            && (s'.o.w, !s'.t.err) ==
               (if slot in s.handles then
                  var (w, ok) := Delete(s.o.w, cfg.KindOf(slot), s.handles[slot], fate); (w, ok && !s.t.err)
                else (s.o.w, !s.t.err))
  {
  }

  /** A run of the body by one thread of the interleaved model, with nobody in between, is the teardown
      that Destroy performs. */
  lemma BodyIsTearDown(cfg: DrillRun.Config, s: DrillRun.State, f1: Fate, f2: Fate)
    requires s.t.once.Running? && s.t.once.stage == DrillRun.Remove(DrillRun.First) && !s.t.err
    ensures var s1 := DrillRun.Body(cfg, s, f1);
            s1.t.once.Running? &&
            var s2 := DrillRun.Body(cfg, s1, f2);
            s2.t.once.Running? &&
            var s3 := DrillRun.Body(cfg, s2, f2);
            && s3.t.once.Done?
            && (s3.o.w, s3.t.destroyed) ==
               TearDown(s.o.w, cfg.first, Handle(s, DrillRun.First), cfg.second, Handle(s, DrillRun.Second), f1, f2)
  {
    StageIsRemoval(cfg, s, DrillRun.First, f1);
    StageIsRemoval(cfg, DrillRun.Body(cfg, s, f1), DrillRun.Second, f2);
  }

  function Deadline(now: Time, ttl: Time): Option<Time> {
    Some(WholeSeconds(now + ttl))
  }

  /** All requests after the failed one were granted: these are the removals of the cleanup. */
  ghost predicate CleanedUp(fate: nat -> Fate, failed: nat, calls: nat) {
    forall j :: failed < j < calls ==> fate(j).Granted?
  }

  function NetworkOf(now: Time): Resource {
    Resource(Network, true, None, now, None, false, false)
  }

  function ContainerOf(now: Time, ttl: Time, network: Id, running: bool): Resource {
    Resource(Container, true, Deadline(now, ttl), now, Some(network), running, false)
  }

  /** Nothing in the world is called `n`, or uses something called `n`. */
  predicate Unheard(w: World, n: Id) {
    n !in w && forall id <- w :: w[id].network != Some(n)
  }

  lemma NetworkGoes(w: World, n: Id, now: Time)
    requires Unheard(w, n)
    ensures TearDown(w[n := NetworkOf(now)], Container, None, Network, Some(n), Granted, Granted) == (w, true)
  {
    assert w[n := NetworkOf(now)] - {n} == w;
  }

  lemma ContainerAndNetworkGo(w: World, n: Id, c: Id, now: Time, ttl: Time, running: bool)
    requires Unheard(w, n) && c !in w && c != n
    ensures TearDown(w[n := NetworkOf(now)][c := ContainerOf(now, ttl, n, running)],
                     Container, Some(c), Network, Some(n), Granted, Granted) == (w, true)
  {
    var w1 := w[n := NetworkOf(now)];
    assert w1[c := ContainerOf(now, ttl, n, running)] - {c} == w1;
    assert w1 - {n} == w;
  }

  lemma LostContainerStays(w: World, n: Id, c: Id, now: Time, ttl: Time)
    requires Unheard(w, n) && c !in w && c != n
    ensures TearDown(w[n := NetworkOf(now)][c := ContainerOf(now, ttl, n, false)],
                     Container, None, Network, Some(n), Granted, Granted)
         == (w[c := ContainerOf(now, ttl, n, false)], true)
  {
    assert w[n := NetworkOf(now)][c := ContainerOf(now, ttl, n, false)] - {n} ==
        w[c := ContainerOf(now, ttl, n, false)];
  }

  /** Starts the container, waits for the engine and asks for the published port. */
  method StartAndInspect(server: Server, c: Id) returns (ok: bool, ghost failed: nat)
    requires c in server.w
    modifies server`w, server`calls
    ensures server.w == old(server.w) || server.w == old(server.w)[c := old(server.w)[c].(running := true)]
    ensures ok ==> server.w == old(server.w)[c := old(server.w)[c].(running := true)]
    ensures !ok ==> old(server.calls) <= failed < server.calls && failed + 1 == server.calls
    ensures !ok ==> !server.fate(failed).Granted?
  {
    failed := server.calls;
    ok := server.Start(c);
    if ok {
      failed := server.calls;
      ok := server.Call();
    }
    if ok {
      failed := server.calls;
      ok := server.Call();
    }
  }

  /** Fills the network: pulls the image, makes the container, starts it and waits. A failure is left to the
      caller to clean up after. */
  method Populate(server: Server, s: Sandbox, n: Id, ttl: Time)
    returns (ok: bool, ghost failed: nat, ghost c: Id, ghost orphan: bool)
    requires server.Valid() && n < server.nextId && s.firstId.None?
    modifies server`w, server`nextId, server`calls, s`firstId
    ensures Unheard(old(server.w), c) && c != n
    ensures ok ==> s.firstId == Some(c) && server.w == old(server.w)[c := ContainerOf(server.now, ttl, n, true)]
    ensures !ok ==> old(server.calls) <= failed && failed + 1 == server.calls && !server.fate(failed).Granted?
    ensures !ok ==> (orphan <==> server.fate(failed).Lost? && failed == old(server.calls) + 1)
    ensures !ok && s.firstId.None? && !orphan ==> server.w == old(server.w)
    ensures !ok && s.firstId.None? && orphan ==>
      server.fate(failed).Lost? && server.w == old(server.w)[c := ContainerOf(server.now, ttl, n, false)]
    ensures !ok && s.firstId.Some? ==>
      && !orphan && s.firstId == Some(c)
      && exists running :: server.w == old(server.w)[c := ContainerOf(server.now, ttl, n, running)]
  {
    failed, orphan, c := server.calls, false, server.nextId;
    ok := server.Call();
    if ok {
      var id := server.NewId();
      failed := server.calls;
      ok := server.Create(id, ContainerOf(server.now, ttl, n, false));
      orphan := server.fate(failed).Lost? && !ok;
      if ok {
        s.firstId := Some(id);
        ghost var w1 := server.w;
        ok, failed := StartAndInspect(server, id);
        assert w1[id := w1[id].(running := true)] == old(server.w)[id := ContainerOf(server.now, ttl, n, true)];
      }
    }
  }

  /** The failed request was the creation of the network or of the container, the second and the fourth request, and
      it took effect all the same. */
  predicate CreationLost(fate: nat -> Fate, start: nat, failed: nat) {
    fate(failed).Lost? && (failed == start + 1 || failed == start + 3)
  }

  /** A resource that was made without the drill learning of it. */
  datatype Orphan = Orphan(id: Id, r: Resource)

  function Plus(w: World, orphan: Option<Orphan>): World {
    if orphan.Some? then w[orphan.value.id := orphan.value.r] else w
  }

  /** The network `n` is there, and the container `c` as far as it got. */
  ghost predicate Halfway(w: World, w0: World, s: Sandbox, n: Id, c: Id, lost: bool, now: Time, ttl: Time)
    reads s
  {
    if s.firstId.Some? then
      s.firstId == Some(c) && !lost &&
      exists running :: w == w0[n := NetworkOf(now)][c := ContainerOf(now, ttl, n, running)]
    else w == Plus(w0[n := NetworkOf(now)], if lost then Some(Orphan(c, ContainerOf(now, ttl, n, false))) else None)
  }

  /** The cleanup of a provisioning that failed with the network made. */
  method CleanUp(server: Server, s: Sandbox, ghost w0: World, ghost n: Id, ghost c: Id, ghost lost: bool,
                 ghost ttl: Time)
    requires s.first == Container && s.second == Network && s.secondId == Some(n) && !s.once
    requires !s.destroyErr && !s.destroyed
    requires Unheard(w0, n) && Unheard(w0, c) && c != n && Halfway(server.w, w0, s, n, c, lost, server.now, ttl)
    modifies s, server`calls, server`w
    ensures old(server.calls) <= server.calls
    ensures (forall j :: old(server.calls) <= j < server.calls ==> server.fate(j).Granted?) ==>
      server.w == Plus(w0, if lost then Some(Orphan(c, ContainerOf(server.now, ttl, n, false))) else None)
  {
    CleanupRestores(w0, n, c, server.now, ttl);
    var _ := s.Destroy(server);
  }

  /** Docker. Whichever request fails, and provided the cleanup's removals succeed, the world is as it was before
      exactly when the failed request was not a creation that took effect all the same; and what such a creation
      made is the only difference. */
  method ProvisionDocker(server: Server, ttl: Time)
    returns (sb: Sandbox?, ghost failed: nat, ghost orphan: Option<Orphan>)
    requires server.Valid()
    modifies server`w, server`nextId, server`calls
    ensures sb != null ==>
      && fresh(sb) && sb.armed && !sb.once && !sb.destroyed && !sb.destroyErr
      && sb.first == Container && sb.second == Network && sb.firstId.Some? && sb.secondId.Some?
      && Unheard(old(server.w), sb.firstId.value) && Unheard(old(server.w), sb.secondId.value)
      && server.w == old(server.w)[sb.secondId.value := NetworkOf(server.now)]
                       [sb.firstId.value := ContainerOf(server.now, ttl, sb.secondId.value, true)]
    ensures sb == null ==> old(server.calls) <= failed < server.calls && !server.fate(failed).Granted?
    ensures sb == null ==> (orphan.Some? <==> CreationLost(server.fate, old(server.calls), failed))
    ensures orphan.Some? ==> Unheard(old(server.w), orphan.value.id)
    ensures sb == null && CleanedUp(server.fate, failed, server.calls) ==> server.w == Plus(old(server.w), orphan)
  {
    orphan, failed, sb := None, server.calls, null;
    ghost var w0 := server.w;
    var ok := server.Call();
    if !ok {
      return;
    }
    failed := server.calls;
    var n := server.NewId();
    ok := server.Create(n, NetworkOf(server.now));
    if !ok {
      orphan := if server.fate(failed).Lost? then Some(Orphan(n, NetworkOf(server.now))) else None;
      return;
    }
    var s := new Sandbox(Container, Network);
    s.secondId := Some(n);
    ghost var c, lost;
    ghost var w1 := server.w;
    ok, failed, c, lost := Populate(server, s, n, ttl);
    assert forall id <- w0 :: id in w1 && w1[id] == w0[id];
    if !ok {
      orphan := if lost then Some(Orphan(c, ContainerOf(server.now, ttl, n, false))) else None;
      CleanUp(server, s, w0, n, c, lost, ttl);
      return;
    }
    s.armed := true;
    sb := s;
  }

  /** An orphan is a difference: the world is as it was exactly when there is none. */
  lemma OrphanShows(w: World, orphan: Option<Orphan>)
    requires orphan.Some? ==> orphan.value.id !in w
    ensures Plus(w, orphan) == w <==> orphan.None?
  {
  }

  lemma CleanupRestores(w: World, n: Id, c: Id, now: Time, ttl: Time)
    requires Unheard(w, n) && Unheard(w, c) && c != n
    ensures TearDown(w[n := NetworkOf(now)], Container, None, Network, Some(n), Granted, Granted) == (w, true)
    ensures TearDown(w[n := NetworkOf(now)][c := ContainerOf(now, ttl, n, false)],
              Container, None, Network, Some(n), Granted, Granted) == (w[c := ContainerOf(now, ttl, n, false)], true)
    ensures forall r :: TearDown(w[n := NetworkOf(now)][c := ContainerOf(now, ttl, n, r)],
              Container, Some(c), Network, Some(n), Granted, Granted) == (w, true)
    ensures w[c := ContainerOf(now, ttl, n, false)] - {c} == w
  {
    NetworkGoes(w, n, now);
    LostContainerStays(w, n, c, now, ttl);
    ContainerAndNetworkGo(w, n, c, now, ttl, true);
    ContainerAndNetworkGo(w, n, c, now, ttl, false);
  }

  function PodOf(now: Time, ttl: Time): Resource {
    Resource(Pod, true, Deadline(now, ttl), now, None, false, false)
  }

  /** Makes the shared namespace and its policy, the pod, and waits for it. */
  method MakePod(server: Server, p: Id, ttl: Time) returns (ok: bool, ghost failed: nat)
    modifies server`w, server`calls
    ensures server.w == old(server.w) || server.w == old(server.w)[p := PodOf(server.now, ttl)]
    ensures ok ==> server.w == old(server.w)[p := PodOf(server.now, ttl)]
    ensures !ok ==> old(server.calls) <= failed && failed + 1 == server.calls && !server.fate(failed).Granted?
  {
    failed := server.calls;
    ok := server.Call();             // shared namespace
    if ok {
      failed := server.calls;
      ok := server.Call();           // deny-egress policy
    }
    if ok {
      failed := server.calls;
      ok := server.Create(p, PodOf(server.now, ttl));
    }
    if ok {
      failed := server.calls;
      ok := server.Call();           // wait until ready
    }
    if ok {
      failed := server.calls;
      ok := server.Call();           // pod address or port-forward
    }
  }

  /** Kubernetes. The pod is named before anything is requested and deleted by name, so even a creation that
      took effect behind an error is undone. */
  method ProvisionPod(server: Server, ttl: Time, inCluster: bool) returns (sb: Sandbox?, ghost failed: nat)
    requires server.Valid()
    modifies server`w, server`nextId, server`calls
    ensures sb != null ==>
      && fresh(sb) && sb.armed && !sb.once && sb.forwarding == !inCluster && sb.first == Pod && sb.firstId.Some?
            && sb.secondId.None?
      && sb.firstId.value !in old(server.w) && server.w == old(server.w)[sb.firstId.value := PodOf(server.now, ttl)]
    ensures sb == null ==> old(server.calls) <= failed < server.calls && !server.fate(failed).Granted?
    ensures sb == null && CleanedUp(server.fate, failed, server.calls) ==> server.w == old(server.w)
  {
    failed, sb := server.calls, null;
    ghost var w0 := server.w;
    var ok := server.Call();
    if !ok {
      return;
    }
    var s := new Sandbox(Pod, Pod);
    var p := server.NewId();
    s.firstId := Some(p);
    assert w0[p := PodOf(server.now, ttl)] - {p} == w0;
    ok, failed := MakePod(server, p, ttl);
    if !ok {
      var _ := s.Destroy(server);
      return;
    }
    s.forwarding := !inCluster;
    s.armed := true;
    sb := s;
  }

  function NamespaceOf(now: Time, ttl: Time): Resource {
    Resource(Namespace, true, Deadline(now, ttl), now, None, false, false)
  }

  /** What is left when Prepare fails at its `i`th request with this fate. */
  function AfterPrepare(w: World, ns: Id, r: Resource, i: nat, fate: Fate): World {
    if i == 2 then w[ns := r.(terminating := true)]
    else if i == 1 && fate.Lost? then w[ns := r]
    else w
  }

  /** Velero. When reading the Backup fails there is nothing; when the namespace's creation fails there is a live one
      exactly if it took effect all the same, for Prepare returns without a cleanup; when the policy fails the
      namespace is on its way out. */
  method PrepareVelero(server: Server, ttl: Time) returns (sb: Sandbox?, ghost failed: nat, ghost ns: Id)
    requires server.Valid()
    modifies server`w, server`nextId, server`calls
    ensures ns !in old(server.w)
    ensures sb != null ==>
      && fresh(sb) && sb.armed && !sb.once && sb.first == Namespace && sb.second == Restore
      && sb.firstId == Some(ns) && sb.secondId.None? && server.w == old(server.w)[ns := NamespaceOf(server.now, ttl)]
    ensures sb == null ==> old(server.calls) <= failed < server.calls && !server.fate(failed).Granted?
    ensures sb == null ==> failed <= old(server.calls) + 2
    ensures sb == null && CleanedUp(server.fate, failed, server.calls) ==>
      server.w == AfterPrepare(old(server.w), ns, NamespaceOf(server.now, ttl), failed - old(server.calls),
                               server.fate(failed))
  {
    failed, sb, ns := server.calls, null, server.nextId;
    var ok := server.Call();         // read the Backup
    if !ok {
      return;
    }
    var s := new Sandbox(Namespace, Restore);
    var id := server.NewId();
    s.firstId := Some(id);
    failed := server.calls;
    ok := server.Create(id, NamespaceOf(server.now, ttl));
    if !ok {
      return;
    }
    failed := server.calls;
    ok := server.Call();             // deny-egress policy
    if !ok {
      var _ := s.Destroy(server);
      return;
    }
    s.armed := true;
    sb := s;
  }
}
