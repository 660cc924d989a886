/** The sweep for orphans. */
module Sweep {
  import opened Clock
  import opened Wrappers
  import opened Resources

  datatype Options = Options(olderThan: Time, dryRun: bool, force: bool)

  /** Past the deadline on its label, or, without one or by force, older than the threshold. */
  predicate Expired(o: Options, expiresAt: Option<Time>, created: Time, now: Time) {
    if expiresAt.Some? && !o.force then now > expiresAt.value else now - created > o.olderThan
  }

  /** Every server but the Docker network API reports creation in whole seconds. */
  function ReportedCreation(r: Resource): Time {
    if r.kind.Network? then r.created else WholeSeconds(r.created)
  }

  /** Networks and Restore objects carry no deadline: age decides, or force. */
  predicate Due(o: Options, r: Resource, now: Time) {
    if r.kind.Network? || r.kind.Restore? then now - ReportedCreation(r) > o.olderThan || o.force
    else Expired(o, r.expiresAt, ReportedCreation(r), now)
  }

  /** What the sweep means to delete. */
  predicate Target(o: Options, r: Resource, now: Time) {
    r.marked && !(r.kind.Namespace? && r.terminating) && Due(o, r, now)
  }

  /** What is removed when the resources of one kind are swept. */
  predicate Doomed(w: World, o: Options, now: Time, fate: Id -> Fate, kind: Kind, id: Id) {
    && id in w && w[id].kind == kind && Target(o, w[id], now) && !o.dryRun
    && !fate(id).Refused? && !(kind.Network? && InUse(w, id))
  }

  function Phase(w: World, o: Options, now: Time, fate: Id -> Fate, kind: Kind): World {
    map id | id in w && (kind.Namespace? || !Doomed(w, o, now, fate, kind, id)) ::
      if Doomed(w, o, now, fate, kind, id) then w[id].(terminating := true) else w[id]
  }

  class Cluster {
    var w: World

    constructor (w: World)
      ensures this.w == w
    {
      this.w := w;
    }

    method Remove(kind: Kind, id: Id, fate: Fate) returns (ok: bool)
      modifies this
      ensures (w, ok) == Delete(old(w), kind, id, fate)
    {
      var (w', r) := Delete(w, kind, id, fate);
      w, ok := w', r;
    }
  }

  datatype Report = Report(reaped: seq<Id>, skipped: seq<Id>, errors: seq<Id>)

  datatype Verdict = Reaped | Skipped | Failed

  /** How a listed resource is reported. A network still in use is a skip, not an error. */
  function VerdictOn(w: World, o: Options, now: Time, fate: Id -> Fate, kind: Kind, id: Id): Verdict
    requires id in w
  {
    if !Target(o, w[id], now) then Skipped
    else if o.dryRun || (fate(id).Granted? && !(kind.Network? && InUse(w, id))) then Reaped
    else if kind.Network? then Skipped
    else Failed
  }

  ghost predicate Lists(ids: seq<Id>, w: World, kind: Kind) {
    && (forall i, j :: 0 <= i < j < |ids| ==> ids[i] != ids[j])
    && (forall id :: id in ids <==> id in w && w[id].kind == kind && w[id].marked)
  }

  /** A sweep that has got as far as `done`. */
  ghost function Partly(w: World, o: Options, now: Time, fate: Id -> Fate, kind: Kind, done: set<Id>): World {
    map id | id in w && (kind.Namespace? || id !in done || !Doomed(w, o, now, fate, kind, id)) ::
      if id in done && Doomed(w, o, now, fate, kind, id) then w[id].(terminating := true) else w[id]
  }

  /** Removing networks frees no network: who is in use does not depend on the order of the listing. */
  lemma PartlyInUse(w: World, o: Options, now: Time, fate: Id -> Fate, done: set<Id>, id: Id)
    ensures InUse(Partly(w, o, now, fate, Network, done), id) <==> InUse(w, id)
  {
    var w' := Partly(w, o, now, fate, Network, done);
    forall c | c in w && w[c].kind.Container? && w[c].running && w[c].network == Some(id)
      ensures c in w' && w'[c] == w[c]
    {
    }
  }

  lemma PartlyRemoves(w: World, o: Options, now: Time, fate: Id -> Fate, kind: Kind, done: set<Id>, id: Id)
    requires id in w && id !in done && w[id].kind == kind && Target(o, w[id], now) && !o.dryRun
    ensures var r := Delete(Partly(w, o, now, fate, kind, done), kind, id, fate(id));
            && r.0 == Partly(w, o, now, fate, kind, done + {id})
            && r.1 == (VerdictOn(w, o, now, fate, kind, id) == Reaped)
  {
    if kind.Network? {
      PartlyInUse(w, o, now, fate, done, id);
    }
  }

  lemma PartlySpares(w: World, o: Options, now: Time, fate: Id -> Fate, kind: Kind, done: set<Id>, id: Id)
    requires id in w && (!Target(o, w[id], now) || o.dryRun)
    ensures Partly(w, o, now, fate, kind, done + {id}) == Partly(w, o, now, fate, kind, done)
  {
  }

  /** The listed resources with one verdict, in the order of the listing. */
  function Pick(w: World, o: Options, now: Time, fate: Id -> Fate, kind: Kind, ids: seq<Id>, v: Verdict): seq<Id>
    requires forall id <- ids :: id in w
  {
    if ids == [] then []
    else
      var id := ids[|ids| - 1];
      Pick(w, o, now, fate, kind, ids[..|ids| - 1], v) +
      if VerdictOn(w, o, now, fate, kind, id) == v then [id] else []
  }

  /** Looks at one listed resource, and asks for its deletion when it is a target and this is not a dry run. */
  method SweepOne(c: Cluster, o: Options, now: Time, fate: Fate, kind: Kind, id: Id) returns (v: Verdict)
    requires id in c.w
    modifies c
    ensures if Target(o, old(c.w)[id], now) && !o.dryRun then c.w == Delete(old(c.w), kind, id, fate).0
            else c.w == old(c.w)
    ensures v == if !Target(o, old(c.w)[id], now) then Skipped
                 else if o.dryRun || Delete(old(c.w), kind, id, fate).1 then Reaped
                 else if kind.Network? then Skipped else Failed
  {
    if !Target(o, c.w[id], now) {
      return Skipped;
    }
    if o.dryRun {
      return Reaped;
    }
    var ok := c.Remove(kind, id, fate);
    v := if ok then Reaped else if kind.Network? then Skipped else Failed;
  }

  lemma OneMore(w: World, o: Options, now: Time, fate: Id -> Fate, kind: Kind, done: set<Id>, id: Id)
    requires id in w && id !in done && w[id].kind == kind
    ensures var before := Partly(w, o, now, fate, kind, done);
            && id in before && before[id] == w[id]
            && Partly(w, o, now, fate, kind, done + {id}) ==
               (if Target(o, w[id], now) && !o.dryRun then Delete(before, kind, id, fate(id)).0 else before)
            && VerdictOn(w, o, now, fate, kind, id) ==
               (if !Target(o, w[id], now) then Skipped
                else if o.dryRun || Delete(before, kind, id, fate(id)).1 then Reaped
                else if kind.Network? then Skipped else Failed)
  {
    if Target(o, w[id], now) && !o.dryRun {
      PartlyRemoves(w, o, now, fate, kind, done, id);
    } else {
      PartlySpares(w, o, now, fate, kind, done, id);
    }
  }

  lemma PickOneMore(w: World, o: Options, now: Time, fate: Id -> Fate, kind: Kind, ids: seq<Id>, i: nat, v: Verdict)
    requires i < |ids| && forall id <- ids :: id in w
    ensures Pick(w, o, now, fate, kind, ids[..i + 1], v) ==
            Pick(w, o, now, fate, kind, ids[..i], v) +
            if VerdictOn(w, o, now, fate, kind, ids[i]) == v then [ids[i]] else []
  {
    assert ids[..i + 1][..i] == ids[..i];
  }

  /** Sweeps the marked resources of one kind, in whatever order the server lists them. */
  method SweepKind(c: Cluster, o: Options, now: Time, fate: Id -> Fate, kind: Kind, ids: seq<Id>) returns (res: Report)
    requires Lists(ids, c.w, kind)
    modifies c
    ensures c.w == Phase(old(c.w), o, now, fate, kind)
    ensures res.reaped == Pick(old(c.w), o, now, fate, kind, ids, Reaped)
    ensures res.skipped == Pick(old(c.w), o, now, fate, kind, ids, Skipped)
    ensures res.errors == Pick(old(c.w), o, now, fate, kind, ids, Failed)
  {
    res := Report([], [], []);
    ghost var w0 := c.w;
    for i := 0 to |ids|
      invariant c.w == Partly(w0, o, now, fate, kind, Seen(ids, i))
      invariant res.reaped == Pick(w0, o, now, fate, kind, ids[..i], Reaped)
      invariant res.skipped == Pick(w0, o, now, fate, kind, ids[..i], Skipped)
      invariant res.errors == Pick(w0, o, now, fate, kind, ids[..i], Failed)
    {
      SeenMore(ids, i);
      OneMore(w0, o, now, fate, kind, Seen(ids, i), ids[i]);
      var v := SweepOne(c, o, now, fate(ids[i]), kind, ids[i]);
      forall v {
        PickOneMore(w0, o, now, fate, kind, ids, i, v);
      }
      res := match v
        case Reaped => res.(reaped := res.reaped + [ids[i]])
        case Skipped => res.(skipped := res.skipped + [ids[i]])
        case Failed => res.(errors := res.errors + [ids[i]]);
    }
    assert ids[..|ids|] == ids;
    SweptAll(w0, o, now, fate, kind, ids);
  }

  ghost function Seen(ids: seq<Id>, i: nat): set<Id>
    requires i <= |ids|
  {
    set id <- ids[..i]
  }

  lemma SeenMore(ids: seq<Id>, i: nat)
    requires i < |ids| && forall j, k :: 0 <= j < k < |ids| ==> ids[j] != ids[k]
    ensures ids[i] !in Seen(ids, i) && Seen(ids, i + 1) == Seen(ids, i) + {ids[i]}
  {
    assert ids[..i + 1] == ids[..i] + [ids[i]];
  }

  lemma SweptAll(w: World, o: Options, now: Time, fate: Id -> Fate, kind: Kind, ids: seq<Id>)
    requires Lists(ids, w, kind)
    ensures Partly(w, o, now, fate, kind, Seen(ids, |ids|)) == Phase(w, o, now, fate, kind)
  {
    assert ids[..|ids|] == ids;
  }

  function DockerSweep(w: World, o: Options, now: Time, fate: Id -> Fate): World {
    Phase(Phase(w, o, now, fate, Container), o, now, fate, Network)
  }

  function KubernetesSweep(w: World, o: Options, now: Time, fate: Id -> Fate): World {
    Phase(Phase(Phase(w, o, now, fate, Pod), o, now, fate, Namespace), o, now, fate, Restore)
  }

  /** The report is true: what it lists as reaped is gone, unless this was a dry run; what it lists as skipped is
      as it was, unless a network's removal took effect behind an error; and everything listed is reported once. */
  lemma {:induction false} ReportIsTrue(w: World, o: Options, now: Time, fate: Id -> Fate, kind: Kind, ids: seq<Id>)
    requires forall id <- ids :: id in w && w[id].kind == kind
    ensures var after := Phase(w, o, now, fate, kind);
      && (forall id <- Pick(w, o, now, fate, kind, ids, Reaped) :: o.dryRun || Gone(after, id))
      && (forall id <- Pick(w, o, now, fate, kind, ids, Skipped) ::
            (id in after && after[id] == w[id]) || (kind.Network? && fate(id).Lost?))
      && |ids| == |Pick(w, o, now, fate, kind, ids, Reaped)| + |Pick(w, o, now, fate, kind, ids, Skipped)|
                + |Pick(w, o, now, fate, kind, ids, Failed)|
  {
    if ids != [] {
      ReportIsTrue(w, o, now, fate, kind, ids[..|ids| - 1]);
    }
  }

  lemma {:induction false} PickedAre(w: World, o: Options, now: Time, fate: Id -> Fate, kind: Kind, ids: seq<Id>,
                                     v: Verdict, id: Id)
    requires forall x <- ids :: x in w
    ensures id in Pick(w, o, now, fate, kind, ids, v) <==> id in ids && VerdictOn(w, o, now, fate, kind, id) == v
  {
    if ids != [] {
      PickedAre(w, o, now, fate, kind, ids[..|ids| - 1], v, id);
    }
  }

  predicate Touched(w: World, after: World, id: Id)
    requires id in w
  {
    id in after ==> after[id] != w[id]
  }

  /** What the report says of a listed resource, unless this was a dry run: reaped, if the sweep took it and the request
      was granted; an error, if its request was not granted, though it would have been taken, and it is no network; and
      skipped otherwise. */
  lemma ReportTells(w: World, o: Options, now: Time, fate: Id -> Fate, kind: Kind, ids: seq<Id>, id: Id)
    requires !o.dryRun && id in ids && forall x <- ids :: x in w && w[x].kind == kind
    ensures var taken := Touched(w, Phase(w, o, now, fate, kind), id);
      var wanted := Touched(w, Phase(w, o, now, x => Granted, kind), id);
      && (id in Pick(w, o, now, fate, kind, ids, Reaped) <==> taken && fate(id) == Granted)
      && (id in Pick(w, o, now, fate, kind, ids, Failed) <==> kind != Network && wanted && fate(id) != Granted)
      && (id in Pick(w, o, now, fate, kind, ids, Skipped) <==>
            !(taken && fate(id) == Granted) && !(kind != Network && wanted && fate(id) != Granted))
  {
    forall v {
      PickedAre(w, o, now, fate, kind, ids, v, id);
    }
  }

  /** What a dry run says would be reaped is just what a sweep reaps whose requests are all granted, but for networks in
      use: those it announces, and a real sweep skips them. */
  lemma DryRunForecasts(w: World, o: Options, now: Time, fate: Id -> Fate, kind: Kind, ids: seq<Id>, id: Id,
                        granted: Id -> Fate)
    requires o.dryRun && id in ids && forall x <- ids :: x in w && w[x].kind == kind
    requires forall x :: granted(x) == Granted
    ensures var announced := id in Pick(w, o, now, fate, kind, ids, Reaped);
      && (announced <==>
            id in Pick(w, o.(dryRun := false), now, granted, kind, ids, Reaped) ||
            (kind == Network && InUse(w, id) && (o.force || now - w[id].created > o.olderThan) && w[id].marked))
      && (id in Pick(w, o, now, fate, kind, ids, Skipped) <==> !announced)
  {
    PickedAre(w, o, now, fate, kind, ids, Reaped, id);
    PickedAre(w, o, now, fate, kind, ids, Skipped, id);
    PickedAre(w, o.(dryRun := false), now, granted, kind, ids, Reaped, id);
  }

  /** A network that cannot be removed is passed over, never reported as an error. */
  lemma {:induction false} NoNetworkFails(w: World, o: Options, now: Time, fate: Id -> Fate, ids: seq<Id>)
    requires forall id <- ids :: id in w
    ensures Pick(w, o, now, fate, Network, ids, Failed) == []
  {
    if ids != [] {
      NoNetworkFails(w, o, now, fate, ids[..|ids| - 1]);
    }
  }

  /** Containers first, then networks. */
  method SweepDocker(c: Cluster, o: Options, now: Time, fate: Id -> Fate, containers: seq<Id>, networks: seq<Id>)
    returns (res: Report)
    requires Lists(containers, c.w, Container) && Lists(networks, c.w, Network)
    modifies c
    ensures c.w == DockerSweep(old(c.w), o, now, fate)
    ensures var w1 := Phase(old(c.w), o, now, fate, Container);
      && res.reaped == Pick(old(c.w), o, now, fate, Container, containers, Reaped) +
            Pick(w1, o, now, fate, Network, networks, Reaped)
      && res.skipped == Pick(old(c.w), o, now, fate, Container, containers, Skipped) +
            Pick(w1, o, now, fate, Network, networks, Skipped)
      && res.errors == Pick(old(c.w), o, now, fate, Container, containers, Failed)
  {
    var first := SweepKind(c, o, now, fate, Container, containers);
    NoNetworkFails(c.w, o, now, fate, networks);
    var second := SweepKind(c, o, now, fate, Network, networks);
    res := Report(first.reaped + second.reaped, first.skipped + second.skipped, first.errors + second.errors);
  }

  /** Pods, then ephemeral namespaces, then leftover Restore objects. */
  method SweepKubernetes(c: Cluster, o: Options, now: Time, fate: Id -> Fate,
                         pods: seq<Id>, namespaces: seq<Id>, restores: seq<Id>) returns (res: Report)
    requires Lists(pods, c.w, Pod) && Lists(namespaces, c.w, Namespace) && Lists(restores, c.w, Restore)
    modifies c
    ensures c.w == KubernetesSweep(old(c.w), o, now, fate)
    ensures var w1 := Phase(old(c.w), o, now, fate, Pod); var w2 := Phase(w1, o, now, fate, Namespace);
      && res.reaped == Pick(old(c.w), o, now, fate, Pod, pods, Reaped) +
            Pick(w1, o, now, fate, Namespace, namespaces, Reaped)
                     + Pick(w2, o, now, fate, Restore, restores, Reaped)
      && res.skipped == Pick(old(c.w), o, now, fate, Pod, pods, Skipped) +
            Pick(w1, o, now, fate, Namespace, namespaces, Skipped)
                      + Pick(w2, o, now, fate, Restore, restores, Skipped)
      && res.errors == Pick(old(c.w), o, now, fate, Pod, pods, Failed) +
            Pick(w1, o, now, fate, Namespace, namespaces, Failed)
                     + Pick(w2, o, now, fate, Restore, restores, Failed)
  {
    var first := SweepKind(c, o, now, fate, Pod, pods);
    var second := SweepKind(c, o, now, fate, Namespace, namespaces);
    var third := SweepKind(c, o, now, fate, Restore, restores);
    res := Report(first.reaped + second.reaped + third.reaped, first.skipped + second.skipped + third.skipped,
                  first.errors + second.errors + third.errors);
  }

  /** A resource without FireDrill's mark is left exactly as it was. */
  lemma UnmarkedIsUntouched(w: World, o: Options, now: Time, fate: Id -> Fate, id: Id)
    requires id in w && !w[id].marked
    ensures id in DockerSweep(w, o, now, fate) && DockerSweep(w, o, now, fate)[id] == w[id]
    ensures id in KubernetesSweep(w, o, now, fate) && KubernetesSweep(w, o, now, fate)[id] == w[id]
  {
  }

  /** A dry run changes nothing. */
  lemma DryRunIsHarmless(w: World, o: Options, now: Time, fate: Id -> Fate)
    requires o.dryRun
    ensures DockerSweep(w, o, now, fate) == w && KubernetesSweep(w, o, now, fate) == w
  {
  }

  /** Unless forced, no resource is touched before the deadline on its label. */
  lemma LeaseIsRespected(w: World, o: Options, now: Time, fate: Id -> Fate, id: Id)
    requires id in w && w[id].expiresAt.Some? && now <= w[id].expiresAt.value && !o.force
    requires !w[id].kind.Network? && !w[id].kind.Restore?
    ensures id in DockerSweep(w, o, now, fate) && DockerSweep(w, o, now, fate)[id] == w[id]
    ensures id in KubernetesSweep(w, o, now, fate) && KubernetesSweep(w, o, now, fate)[id] == w[id]
  {
  }

  // ---- Exactly what goes

  /** Unless forced, the deadline on its label alone decides about a container, a pod or a namespace, however old or
      young it is; without a label its reported age does. */
  lemma LeaseDecides(w: World, o: Options, now: Time, fate: Id -> Fate, id: Id)
    requires id in w && w[id].marked && !o.force && !o.dryRun && fate(id) != Refused
    ensures var r, docker, cluster := w[id], DockerSweep(w, o, now, fate), KubernetesSweep(w, o, now, fate);
      var over := if r.expiresAt.Some? then now > r.expiresAt.value else now - WholeSeconds(r.created) > o.olderThan;
      && (r.kind == Container ==> (id !in docker <==> over))
      && (r.kind == Pod ==> (id !in cluster <==> over))
      && (r.kind == Namespace ==> id in cluster && (cluster[id].terminating <==> over || r.terminating))
  {
  }

  /** By force, no label counts: age decides. */
  lemma ForceOverridesLease(w: World, o: Options, now: Time, fate: Id -> Fate, id: Id)
    requires id in w && w[id].marked && o.force && !o.dryRun && fate(id) != Refused
    ensures var r, docker, cluster := w[id], DockerSweep(w, o, now, fate), KubernetesSweep(w, o, now, fate);
      var aged := now - WholeSeconds(r.created) > o.olderThan;
      && (r.kind == Container ==> (id !in docker <==> aged))
      && (r.kind == Pod ==> (id !in cluster <==> aged))
      && (r.kind == Namespace ==> id in cluster && (cluster[id].terminating <==> aged || r.terminating))
  {
  }

  /** A network goes when it is old, or by force, unless a running container on it survives the sweep; a Restore object
      when its reported age says so, or by force. No label counts. */
  lemma AgeDecides(w: World, o: Options, now: Time, fate: Id -> Fate, id: Id)
    requires id in w && w[id].marked && !o.dryRun && fate(id) != Refused
    ensures var r, docker, cluster := w[id], DockerSweep(w, o, now, fate), KubernetesSweep(w, o, now, fate);
      && (r.kind == Network ==> (id !in docker <==>
            (o.force || now - r.created > o.olderThan) &&
            forall c <- w :: w[c].kind == Container && w[c].running && w[c].network == Some(id) ==> c !in docker))
      && (r.kind == Restore ==> (id !in cluster <==> o.force || now - WholeSeconds(r.created) > o.olderThan))
  {
    var w1 := Phase(w, o, now, fate, Container);
    forall c | c in w && w[c].kind == Container
      ensures c in w1 <==> c in DockerSweep(w, o, now, fate)
      ensures c in w1 ==> w1[c] == w[c]
    {
    }
    assert w[id].kind == Network ==> id in w1 && w1[id] == w[id];
  }

  /** A refused request takes nothing, and neither sweep takes what belongs to the other. */
  lemma NothingElseGoes(w: World, o: Options, now: Time, fate: Id -> Fate, id: Id)
    requires id in w
    ensures var docker, cluster := DockerSweep(w, o, now, fate), KubernetesSweep(w, o, now, fate);
      && (fate(id) == Refused || w[id].kind !in {Container, Network} ==> id in docker)
      && (id in docker ==> docker[id] == w[id])
      && (fate(id) == Refused || w[id].kind in {Container, Network} ==> id in cluster && cluster[id] == w[id])
      && (id in cluster && w[id].kind != Namespace ==> cluster[id] == w[id])
  {
  }

  /** A network outlives the sweep whenever a running container on it does: a live drill keeps its network
      from the moment its container starts. */
  lemma LiveContainerKeepsItsNetwork(w: World, o: Options, now: Time, fate: Id -> Fate, c: Id, n: Id)
    requires c in w && w[c].kind.Container? && w[c].running && w[c].network == Some(n)
    requires n in w && w[n].kind.Network? && c in DockerSweep(w, o, now, fate)
    ensures n in DockerSweep(w, o, now, fate) && DockerSweep(w, o, now, fate)[n] == w[n]
  {
    assert InUse(Phase(w, o, now, fate, Container), n);
  }

  /** Swept the other way round, a network in use would stay. */
  lemma NetworksFirstLeavesNetwork(w: World, o: Options, now: Time, fate: Id -> Fate, n: Id)
    requires n in w && w[n].kind.Network? && InUse(w, n)
    ensures n in Phase(Phase(w, o, now, fate, Network), o, now, fate, Container)
  {
  }

  /** Force is documented to reap what is older than the threshold. For containers, pods and namespaces it
      does exactly that; networks and Restore objects it reaps at any age. */
  lemma ForceAndAge(o: Options, r: Resource, now: Time)
    requires o.force
    ensures r.kind.Network? || r.kind.Restore? ==> Due(o, r, now)
    ensures !r.kind.Network? && !r.kind.Restore? ==> (Due(o, r, now) <==> now - WholeSeconds(r.created) > o.olderThan)
  {
  }

  /** So force takes what was made a moment ago: a network and a Restore object, though not a container. */
  lemma ForceTakesTheNew(o: Options, now: Time, fate: Id -> Fate, k: Kind)
    requires o.force && !o.dryRun && o.olderThan >= SECOND && forall id :: fate(id) == Granted
    ensures var w: World := map[0 := Resource(k, true, None, now, None, false, false)];
      && (k.Network? ==> DockerSweep(w, o, now, fate) == map[])
      && (k.Restore? ==> KubernetesSweep(w, o, now, fate) == map[])
      && (k.Container? ==> DockerSweep(w, o, now, fate) == w)
  {
  }
}
