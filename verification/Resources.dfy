/** What a drill leaves in the outside world: Docker containers and networks, Kubernetes pods and
    namespaces, Velero Restore objects. The Docker daemon and the API server are a map of resources
    together with a fate for each request. */
module Resources {
  import opened Clock
  import opened Wrappers

  type Id = nat

  datatype Kind = Container | Network | Pod | Namespace | Restore

  /** `marked`: carries FireDrill's label, or for a network its name prefix. `expiresAt`: the hard deadline
      written on the resource. `network` and `running` matter for containers only. */
  datatype Resource = Resource(kind: Kind, marked: bool, expiresAt: Option<Time>, created: Time,
                               network: Option<Id>, running: bool, terminating: bool)

  type World = map<Id, Resource>

  /** How a request ends. `Lost`: it took effect, but the caller saw an error. */
  datatype Fate = Granted | Refused | Lost

  /** A network cannot be removed while a running container is attached to it. */
  predicate InUse(w: World, id: Id) {
    exists c <- w :: w[c].kind.Container? && w[c].running && w[c].network == Some(id)
  }

  /** Absent, or a namespace already on its way out. */
  predicate Gone(w: World, id: Id) {
    id in w ==> w[id].terminating
  }

  /** The API server's "not found" counts as deleted; the Docker daemon's does not. */
  predicate ToleratesMissing(kind: Kind) {
    !kind.Container? && !kind.Network?
  }

  function Drop(w: World, id: Id): World
    requires id in w
  {
    if w[id].kind.Namespace? then w[id := w[id].(terminating := true)] else w - {id}
  }

  /** A removal request: the world after it, and whether the caller counts it as a success. */
  function Delete(w: World, kind: Kind, id: Id, fate: Fate): (r: (World, bool))
    ensures r.1 ==> Gone(r.0, id)
    ensures r.0 - {id} == w - {id}
  {
    if id !in w then (w, fate.Granted? && ToleratesMissing(kind))
    else if fate.Refused? || (kind.Network? && InUse(w, id)) then (w, false)
    else (Drop(w, id), fate.Granted?)
  }

  /** When a removal counts as a success: it must be granted, and the Docker daemon must find the resource, with no
      running container on it if it is a network. Nobody else minds if it is gone already. */
  predicate Succeeds(w: World, kind: Kind, id: Id, fate: Fate) {
    fate == Granted &&
    match kind
    case Container => id in w
    case Network =>
      id in w && forall c <- w :: w[c].kind == Container && w[c].running ==> w[c].network != Some(id)
    case Pod => true
    case Namespace => true
    case Restore => true
  }

  /** What a removal does: nothing, if it is refused or the network is in use; else a namespace begins to terminate, and
      anything else is no longer there. */
  lemma DeleteMeans(w: World, kind: Kind, id: Id, fate: Fate)
    ensures var (w', ok) := Delete(w, kind, id, fate);
      && (ok <==> Succeeds(w, kind, id, fate))
      && (forall x :: x != id ==> (x in w' <==> x in w) && (x in w' ==> w'[x] == w[x]))
      && (id !in w ==> id !in w')
      && (id in w && (fate == Refused || !Succeeds(w, kind, id, Granted)) ==> w' == w)
      && (id in w && fate != Refused && Succeeds(w, kind, id, Granted) ==>
            if w[id].kind == Namespace then w' == w[id := w[id].(terminating := true)] else id !in w')
  {
  }
}
