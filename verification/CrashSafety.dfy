/** A drill that dies leaves nothing a sweep does not find; and exactly what a sweep takes from a drill that lives. */
module CrashSafety {
  import opened Clock
  import opened Wrappers
  import opened Resources
  import opened DrillRun
  import opened DrillSafety
  import opened Providers
  import Sweep

  /** Late enough for a sweep to judge what a drill made before it died. For a container, a pod or a namespace the time
      to live is over, whatever the age threshold, which counts by force only; a network or a Restore object is older
      than the threshold, unless forced. */
  predicate LateEnough(cfg: Config, s: State, o: Sweep.Options, now: Time, kind: Kind) {
    if kind == Network || kind == Restore then o.force || now > s.o.now + o.olderThan
    else now > s.o.now + if o.force then o.olderThan else cfg.ttl
  }

  /** Everything of the drill that is still there is due. */
  lemma RemainsAreDue(cfg: Config, s: State, o: Sweep.Options, now: Time, id: Id)
    requires WellFormed(cfg) && Reachable(cfg, s)
    requires id in s.o.mine && id in s.o.w && LateEnough(cfg, s, o, now, s.o.w[id].kind)
    ensures s.o.w[id].marked && Sweep.Due(o, s.o.w[id], now)
    ensures s.o.w[id].kind == cfg.first || s.o.w[id].kind == cfg.second
  {
    ReachableInv(cfg, s);
    assert Leased(cfg, s.o, s.o.w[id]);
  }

  /** Whatever step a Docker drill dies after, one sweep leaves no container and no network of it, unless
      somebody else's running container was attached to that network. */
  lemma SweepClearsDockerDrill(ttl: Time, s: State, o: Sweep.Options, now: Time, fate: Id -> Fate, id: Id)
    requires Reachable(Docker(ttl), s) && LateEnough(Docker(ttl), s, o, now, Container)
    requires id in s.o.mine && (id in s.o.w ==> LateEnough(Docker(ttl), s, o, now, s.o.w[id].kind))
    requires !o.dryRun && forall x :: fate(x) == Granted
    ensures id in Sweep.DockerSweep(s.o.w, o, now, fate) ==>
      && s.o.w[id].kind.Network?
      && exists c <- s.o.w :: c !in s.o.mine && s.o.w[c].kind.Container? && s.o.w[c].running
           && s.o.w[c].network == Some(id)
  {
    DockerShape(ttl);
    var cfg := Docker(ttl);
    if id in s.o.w {
      RemainsAreDue(cfg, s, o, now, id);
    }
    var w1 := Sweep.Phase(s.o.w, o, now, fate, Container);
    if id in Sweep.DockerSweep(s.o.w, o, now, fate) {
      assert InUse(w1, id);
      var c :| c in w1 && w1[c].kind.Container? && w1[c].running && w1[c].network == Some(id);
      if c in s.o.mine {
        RemainsAreDue(cfg, s, o, now, c);
        assert false;
      }
    }
  }

  /** The same for Kubernetes and Velero drills: no pod, no live namespace, no Restore object remains, not even
      one that was created after the teardown. */
  lemma SweepClearsClusterDrill(cfg: Config, ttl: Time, s: State, o: Sweep.Options, now: Time, fate: Id -> Fate, id: Id)
    requires cfg == Kubernetes(ttl) || cfg == Velero(ttl)
    requires Reachable(cfg, s)
    requires id in s.o.mine && (id in s.o.w ==> LateEnough(cfg, s, o, now, s.o.w[id].kind))
    requires !o.dryRun && forall x :: fate(x) == Granted
    ensures Gone(Sweep.KubernetesSweep(s.o.w, o, now, fate), id)
  {
    KubernetesShape(ttl);
    VeleroShape(ttl);
    if id in s.o.w {
      RemainsAreDue(cfg, s, o, now, id);
    }
  }

  /** No sweep takes a drill's container, pod or namespace more than a second before its time to live is
      over: the label it reads is the deadline without its fraction of a second. */
  lemma SweepIsNotEarly(cfg: Config, s: State, o: Sweep.Options, now: Time, id: Id)
    requires WellFormed(cfg) && Reachable(cfg, s) && !o.force
    requires id in s.o.mine && id in s.o.w && Sweep.Target(o, s.o.w[id], now)
    requires !s.o.w[id].kind.Network? && !s.o.w[id].kind.Restore?
    ensures now > s.o.w[id].created + cfg.ttl - SECOND
  {
    ReachableInv(cfg, s);
  }

  // ---- A sweep beside a live drill

  /** No deadline of the drill's resources has passed. */
  predicate WithinLease(s: State, now: Time) {
    forall id <- s.o.mine :: id in s.o.w && s.o.w[id].expiresAt.Some? ==> now <= s.o.w[id].expiresAt.value
  }

  /** Nobody else runs a container on this network. */
  predicate OwnUseOnly(s: State, n: Id) {
    forall c <- s.o.w :: s.o.w[c].kind.Container? && s.o.w[c].running && s.o.w[c].network == Some(n) ==> c in s.o.mine
  }

  /** Networks carry no deadline: within a Docker drill's lease, an unforced sweep takes its network exactly when that
      is older than the threshold and no container runs on it yet. */
  lemma LiveNetworkIsTaken(ttl: Time, s: State, o: Sweep.Options, now: Time, fate: Id -> Fate, n: Id)
    requires Reachable(Docker(ttl), s) && WithinLease(s, now) && OwnUseOnly(s, n)
    requires !o.force && !o.dryRun && !fate(n).Refused?
    requires n in s.o.mine && n in s.o.w && s.o.w[n].kind.Network?
    ensures n !in Sweep.DockerSweep(s.o.w, o, now, fate) <==> now - s.o.w[n].created > o.olderThan && !InUse(s.o.w, n)
  {
    DockerShape(ttl);
    ReachableInv(Docker(ttl), s);
    assert Leased(Docker(ttl), s.o, s.o.w[n]);
    var w1 := Sweep.Phase(s.o.w, o, now, fate, Container);
    if InUse(s.o.w, n) {
      var c :| c in s.o.w && s.o.w[c].kind.Container? && s.o.w[c].running && s.o.w[c].network == Some(n);
      assert Leased(Docker(ttl), s.o, s.o.w[c]);
      assert c in w1 && w1[c] == s.o.w[c];
    }
    assert InUse(w1, n) <==> InUse(s.o.w, n);
  }

  /** Neither do Restore objects: within a Velero drill's lease, an unforced sweep takes its Restore object exactly
      when that is older than the threshold, in use or not. */
  lemma LiveRestoreIsTaken(ttl: Time, s: State, o: Sweep.Options, now: Time, fate: Id -> Fate, id: Id)
    requires Reachable(Velero(ttl), s) && WithinLease(s, now)
    requires !o.force && !o.dryRun && !fate(id).Refused?
    requires id in s.o.mine && id in s.o.w && s.o.w[id].kind.Restore?
    ensures id !in Sweep.KubernetesSweep(s.o.w, o, now, fate) <==> now - WholeSeconds(s.o.w[id].created) > o.olderThan
  {
    VeleroShape(ttl);
    ReachableInv(Velero(ttl), s);
    assert Leased(Velero(ttl), s.o, s.o.w[id]);
  }

  /** It happens: an image pull longer than the threshold loses its network, long before the time to live is over. */
  lemma LongPullLosesItsNetwork(ttl: Time, o: Sweep.Options, fate: Id -> Fate) returns (s: State, now: Time)
    requires 0 <= o.olderThan < ttl && !o.force && !o.dryRun && fate(0).Granted?
    ensures Reachable(Docker(ttl), s) && s.main == At(2) && WithinLease(s, now) && now <= s.o.now + ttl
    ensures 0 in s.o.mine && Second in s.handles && s.handles[Second] == 0 && 0 in s.o.w
    ensures 0 !in Sweep.DockerSweep(s.o.w, o, now, fate)
  {
    s := DockerMakesNetwork(ttl, Resource(Network, true, None, 0, None, false, false));
    now := o.olderThan + 1;
    LiveNetworkIsTaken(ttl, s, o, now, fate, 0);
  }

  /** And a restore longer than the threshold loses its Restore object. */
  lemma LongRestoreLosesItsObject(ttl: Time, o: Sweep.Options, fate: Id -> Fate) returns (s: State, now: Time)
    requires 0 <= o.olderThan < WholeSeconds(ttl) && !o.force && !o.dryRun && fate(1).Granted?
    ensures Reachable(Velero(ttl), s) && s.main == At(7) && WithinLease(s, now)
    ensures Second in s.handles && s.handles[Second] == 1 && 1 in s.o.w
    ensures 1 !in Sweep.KubernetesSweep(s.o.w, o, now, fate)
  {
    var ns := Resource(Namespace, true, Some(WholeSeconds(ttl)), 0, None, false, false);
    s := VeleroMakesRestore(ttl, ns);
    now := o.olderThan + 1;
    LiveRestoreIsTaken(ttl, s, o, now, fate, 1);
  }
}
