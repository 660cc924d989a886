/** The status of a RecoveryDrill object: written by any number of writers, each reading possibly stale
    copies, under optimistic concurrency. */
module Status {
  import opened Wrappers

  /** The names of the status fields. */
  datatype Key =
    | PhaseKey | MessageKey | VerifiedKey | LastRunTimeKey | ObservedGenerationKey
    | RestoreSecondsKey | BackupAgeKey | RtoMetKey | RpoMetKey | OtherKey(name: string)

  datatype Phase = InvalidPhase | RunningPhase | ErrorPhase | VerifiedPhase | FailedPhase

  /** A field's value. `Instant` is the text of a time. */
  datatype Value =
    | InPhase(phase: Phase) | Text(text: string) | Instant(time: int) | Flag(flag: bool) | Number(number: real)

  type Fields = map<Key, Value>

  /** Applying patches one after the other to an empty status. */
  function Fold(patches: seq<Fields>): Fields {
    if patches == [] then map[] else Fold(patches[..|patches| - 1]) + patches[|patches| - 1]
  }

  /** The last patch that mentions a key. */
  predicate LastToWrite(patches: seq<Fields>, key: Key, i: int) {
    0 <= i < |patches| && key in patches[i] && forall j :: i < j < |patches| ==> key !in patches[j]
  }

  /** Meaning of the fold: every field has the value of the last patch that wrote it. */
  lemma {:induction false} FoldKeepsLastWrites(patches: seq<Fields>, key: Key)
    ensures key in Fold(patches) <==> exists i :: LastToWrite(patches, key, i)
    ensures forall i :: LastToWrite(patches, key, i) ==> Fold(patches)[key] == patches[i][key]
  {
    if patches != [] {
      var init, last := patches[..|patches| - 1], |patches| - 1;
      FoldKeepsLastWrites(init, key);
      if key in patches[last] {
        assert LastToWrite(patches, key, last);
        assert forall i :: LastToWrite(patches, key, i) ==> i == last;
      } else {
        forall i ensures LastToWrite(patches, key, i) <==> LastToWrite(init, key, i) {
          assert 0 <= i < last ==> patches[i] == init[i];
        }
      }
    }
  }

  // ---- The protocol

  type WriterId = nat

  /** A writer in the midst of patchStatus: about to read, or holding what it read and at which version. */
  datatype Writer =
    | Reading(fields: Fields, tries: nat)
    | Holding(fields: Fields, tries: nat, version: nat, read: Fields)

  /** `history[v]` is the status at resource version v; the last entry is current. `commits` lists the
      patches in the order in which their updates were accepted. */
  datatype Server = Server(history: seq<Fields>, commits: seq<Fields>)

  datatype State = State(server: Server, writers: map<WriterId, Writer>)

  const RETRIES := 5

  datatype Event =
    | Begin(id: WriterId, fields: Fields)
    | Get(id: WriterId, version: nat)      // any version up to the current one: reads may be stale
    | Update(id: WriterId)
    | LoseReply(id: WriterId)              // the update is accepted, but the writer sees an error
    | GiveUp(id: WriterId)                 // any other error
    | EditSpec                             // a new version, the status untouched

  function Current(server: Server): Fields {
    if server.history == [] then map[] else server.history[|server.history| - 1]
  }

  predicate IsCurrent(server: Server, w: Writer) {
    w.Holding? && w.version == |server.history| - 1
  }

  /** Accepts an update: the whole status the writer computed from what it read. */
  function Commit(server: Server, w: Writer): Server
    requires w.Holding?
  {
    Server(server.history + [w.read + w.fields], server.commits + [w.fields])
  }

  function Conflict(s: State, id: WriterId, w: Writer): State {
    if w.tries + 1 < RETRIES then s.(writers := s.writers[id := Reading(w.fields, w.tries + 1)])
    else s.(writers := s.writers - {id})
  }

  function Release(s: State, server: Server, id: WriterId): State {
    State(server, s.writers - {id})
  }

  function Next(s: State, e: Event): Option<State> {
    match e
    case Begin(id, fields) =>
      if id in s.writers then None else Some(s.(writers := s.writers[id := Reading(fields, 0)]))
    case Get(id, v) =>
      if id in s.writers && s.writers[id].Reading? && v < |s.server.history| then
        var w := s.writers[id];
        Some(s.(writers := s.writers[id := Holding(w.fields, w.tries, v, s.server.history[v])]))
      else None
    case Update(id) =>
      if id !in s.writers || s.writers[id].Reading? then None
      else if IsCurrent(s.server, s.writers[id]) then Some(Release(s, Commit(s.server, s.writers[id]), id))
      else Some(Conflict(s, id, s.writers[id]))
    case LoseReply(id) =>
      if id in s.writers && IsCurrent(s.server, s.writers[id]) then
        Some(Release(s, Commit(s.server, s.writers[id]), id))
      else None
    case GiveUp(id) => if id in s.writers then Some(Release(s, s.server, id)) else None
    case EditSpec => Some(s.(server := s.server.(history := s.server.history + [Current(s.server)])))
  }

  predicate Initial(s: State) {
    s == State(Server([map[]], []), map[])
  }

  predicate Linear(server: Server) {
    server.history != [] && Current(server) == Fold(server.commits)
  }

  predicate Faithful(history: seq<Fields>, w: Writer) {
    w.Holding? ==> w.version < |history| && w.read == history[w.version]
  }

  predicate Inv(s: State) {
    Linear(s.server) && forall id <- s.writers :: Faithful(s.server.history, s.writers[id])
  }

  lemma FoldOneMore(patches: seq<Fields>, p: Fields)
    ensures Fold(patches + [p]) == Fold(patches) + p
  {
    assert (patches + [p])[..|patches|] == patches;
  }

  lemma CommitIsLinear(server: Server, w: Writer)
    requires Linear(server) && IsCurrent(server, w) && Faithful(server.history, w)
    ensures Linear(Commit(server, w))
  {
    assert w.read == Current(server);
    FoldOneMore(server.commits, w.fields);
    var history := server.history + [w.read + w.fields];
    assert history[|history| - 1] == Fold(server.commits) + w.fields;
  }

  lemma StaysFaithful(s: State, e: Event, id: WriterId)
    requires Inv(s) && Next(s, e).Some? && id in Next(s, e).value.writers
    ensures Faithful(Next(s, e).value.server.history, Next(s, e).value.writers[id])
  {
  }

  lemma StepKeepsInv(s: State, e: Event)
    requires Inv(s) && Next(s, e).Some?
    ensures Inv(Next(s, e).value)
  {
    if e.Update? || e.LoseReply? {
      var w := s.writers[e.id];
      if IsCurrent(s.server, w) {
        CommitIsLinear(s.server, w);
      }
    }
    forall id | id in Next(s, e).value.writers {
      StaysFaithful(s, e, id);
    }
  }

  function Run(s: State, events: seq<Event>): Option<State> {
    if events == [] then Some(s)
    else
      var before :- Run(s, events[..|events| - 1]);
      Next(before, events[|events| - 1])
  }

  /** With any number of writers, stale reads, conflicts, lost replies and edits, the server's status is at
      every moment exactly the fold of the accepted patches: no update ever undoes another's field. */
  lemma {:induction false} StatusIsTheFoldOfCommits(s0: State, events: seq<Event>)
    requires Initial(s0) && Run(s0, events).Some?
    ensures var s := Run(s0, events).value; Inv(s) && Current(s.server) == Fold(s.server.commits)
  {
    if events != [] {
      StatusIsTheFoldOfCommits(s0, events[..|events| - 1]);
      StepKeepsInv(Run(s0, events[..|events| - 1]).value, events[|events| - 1]);
    }
  }

  /** Someone set out to write these fields. */
  ghost predicate Begun(events: seq<Event>, fields: Fields) {
    exists i :: 0 <= i < |events| && events[i].Begin? && events[i].fields == fields
  }

  lemma BegunStays(events: seq<Event>, e: Event, fields: Fields)
    requires Begun(events, fields) || (e.Begin? && e.fields == fields)
    ensures Begun(events + [e], fields)
  {
    var more := events + [e];
    if Begun(events, fields) {
      var i :| 0 <= i < |events| && events[i].Begin? && events[i].fields == fields;
      assert more[i] == events[i];
    } else {
      assert more[|events|] == e;
    }
  }

  /** What one step adds to the accepted patches, and what the writers hold after it, was held before or is begun. */
  lemma FieldsAreOld(s: State, e: Event)
    requires Next(s, e).Some?
    ensures var s' := Next(s, e).value;
            && (forall p <- s'.server.commits ::
                  p in s.server.commits || exists id <- s.writers :: p == s.writers[id].fields)
            && (forall id <- s'.writers :: (id in s.writers && s'.writers[id].fields == s.writers[id].fields) ||
                                           (e.Begin? && s'.writers[id].fields == e.fields))
  {
  }

  /** Nothing is accepted that no writer set out to write. */
  lemma {:induction false} CommitsWereBegun(s0: State, events: seq<Event>)
    requires Initial(s0) && Run(s0, events).Some?
    ensures var s := Run(s0, events).value;
            && (forall p <- s.server.commits :: Begun(events, p))
            && (forall id <- s.writers :: Begun(events, s.writers[id].fields))
  {
    if events != [] {
      var init, e := events[..|events| - 1], events[|events| - 1];
      assert events == init + [e];
      CommitsWereBegun(s0, init);
      FieldsAreOld(Run(s0, init).value, e);
      forall fields | Begun(init, fields) || (e.Begin? && e.fields == fields) ensures Begun(events, fields) {
        BegunStays(init, e, fields);
      }
    }
  }

  // ---- How a writer comes to its end

  /** What a writer set out to write when it last began, and how many updates it has sent since. */
  function Sent(events: seq<Event>, id: WriterId): Option<(Fields, nat)> {
    if events == [] then None
    else
      var before, e := Sent(events[..|events| - 1], id), events[|events| - 1];
      if e.Begin? && e.id == id then Some((e.fields, 0))
      else if e == Update(id) && before.Some? then Some((before.value.0, before.value.1 + 1))
      else before
  }

  predicate Conforms(w: Writer, sent: Option<(Fields, nat)>) {
    sent == Some((w.fields, w.tries)) && w.tries < 5
  }

  lemma OneStepConforms(s: State, e: Event, events: seq<Event>, id: WriterId)
    requires Next(s, e).Some? && (id in s.writers ==> Conforms(s.writers[id], Sent(events, id)))
    ensures id in Next(s, e).value.writers ==> Conforms(Next(s, e).value.writers[id], Sent(events + [e], id))
  {
    assert (events + [e])[..|events|] == events;
  }

  /** In every run, a writer still at work is writing what it began with, and has sent at most four updates, all of them
      in vain. */
  lemma {:induction false} WritersConform(s0: State, events: seq<Event>, id: WriterId)
    requires Initial(s0) && Run(s0, events).Some? && id in Run(s0, events).value.writers
    ensures Conforms(Run(s0, events).value.writers[id], Sent(events, id))
  {
    if events != [] {
      var init, e := events[..|events| - 1], events[|events| - 1];
      assert events == init + [e];
      if id in Run(s0, init).value.writers {
        WritersConform(s0, init, id);
      }
      OneStepConforms(Run(s0, init).value, e, init, id);
    }
  }

  /** A writer ends with the step that has its patch accepted, with an error, or with its fifth update in vain, and with
      no other step of anyone. */
  lemma WriterEnds(s0: State, events: seq<Event>, e: Event, id: WriterId)
    requires Initial(s0) && Run(s0, events).Some? && id in Run(s0, events).value.writers
    requires Next(Run(s0, events).value, e).Some?
    ensures var s := Run(s0, events).value; var s' := Next(s, e).value; var sent := Sent(events, id);
      sent.Some? &&
      var accepted := s'.server.commits == s.server.commits + [sent.value.0];
      (id !in s'.writers <==>
        (e == GiveUp(id) || (e in {Update(id), LoseReply(id)} && accepted) || (e == Update(id) && sent.value.1 == 4)))
  {
    WritersConform(s0, events, id);
  }

  /** An update from a fresh read is accepted, whatever happened before: the writer's fields are in the status, the rest
      of it is as it was, and the writer is done. */
  lemma FreshUpdateIsAccepted(s: State, id: WriterId)
    requires Inv(s) && id in s.writers && s.writers[id].Reading?
    ensures var newest: nat := |s.server.history| - 1; var read := Next(s, Get(id, newest));
      && read.Some? && Next(read.value, Update(id)).Some?
      && var s' := Next(read.value, Update(id)).value;
         && id !in s'.writers && s'.server.commits == s.server.commits + [s.writers[id].fields]
         && Current(s'.server) == Current(s.server) + s.writers[id].fields
  {
  }

  /** A writer begins when it is not at work already, and reads once for each update. */
  lemma WhoCanBegin(s: State, id: WriterId, fields: Fields, version: nat)
    ensures Next(s, Begin(id, fields)).Some? <==> id !in s.writers
    ensures id !in s.writers ==> id in Next(s, Begin(id, fields)).value.writers
    ensures Next(s, Get(id, version)).Some? ==> Next(s, Update(id)).None?
  {
  }

  // ---- The loop

  class ApiServer {
    var status: Fields
    var version: nat
    ghost var commits: seq<Fields>

    constructor ()
      ensures status == map[] && commits == []
    {
      status, version, commits := map[], 0, [];
    }

    ghost predicate Valid()
      reads this
    {
      status == Fold(commits)
    }

    method Accept(fields: Fields)
      requires Valid()
      modifies this
      ensures Valid() && commits == old(commits) + [fields] && version == old(version) + 1
    {
      status, version, commits := status + fields, version + 1, commits + [fields];
      assert commits[..|commits| - 1] == old(commits);
    }

    /** Replaces the status, provided the version is still the one read. */
    method Update(read: Fields, readVersion: nat, fields: Fields) returns (accepted: bool)
      requires Valid() && (readVersion == version ==> read == status)
      modifies this
      ensures Valid() && accepted == (readVersion == old(version))
      ensures if accepted then commits == old(commits) + [fields] && version == old(version) + 1
              else commits == old(commits) && version == old(version) && status == old(status)
    {
      accepted := readVersion == version;
      if accepted {
        Accept(fields);
      }
    }
  }

  /** What the others do to the object between one attempt's read and its update, and whether a request of
      the attempt fails with anything but a conflict. */
  datatype Attempt = Attempt(others: seq<Fields>, fails: bool)

  datatype Outcome = Committed | Errored | Exhausted

  function Others(attempts: seq<Attempt>): seq<Fields> {
    if attempts == [] then [] else Others(attempts[..|attempts| - 1]) + attempts[|attempts| - 1].others
  }

  lemma OthersOneMore(attempts: seq<Attempt>, i: nat)
    requires i < |attempts|
    ensures Others(attempts[..i + 1]) == Others(attempts[..i]) + attempts[i].others
  {
    assert attempts[..i + 1][..i] == attempts[..i];
  }

  lemma Joined(a: seq<Fields>, b: seq<Fields>, c: seq<Fields>)
    ensures a + b + c == a + (b + c)
  {
  }

  method Interfere(server: ApiServer, others: seq<Fields>)
    requires server.Valid()
    modifies server
    ensures server.Valid() && server.commits == old(server.commits) + others
    ensures server.version == old(server.version) + |others|
    ensures others == [] ==> server.status == old(server.status)
  {
    for i := 0 to |others|
      invariant server.Valid() && server.commits == old(server.commits) + others[..i]
      invariant server.version == old(server.version) + i
      invariant i == 0 ==> server.status == old(server.status)
    {
      server.Accept(others[i]);
      assert others[..i + 1] == others[..i] + [others[i]];
    }
  }

  /** One attempt: read, meanwhile the others, then the update. None: another error than a conflict. */
  method TryOnce(server: ApiServer, fields: Fields, attempt: Attempt) returns (accepted: Option<bool>)
    requires server.Valid()
    modifies server
    ensures server.Valid()
    ensures accepted == if attempt.fails then None else Some(attempt.others == [])
    ensures server.commits == old(server.commits) + attempt.others + if accepted == Some(true) then [fields] else []
  {
    var read, version := server.status, server.version;
    Interfere(server, attempt.others);
    if attempt.fails {
      return None;
    }
    var ok := server.Update(read, version, fields);
    return Some(ok);
  }

  /** Merges `fields` into the status under the conflict-retry loop. */
  method PatchStatus(server: ApiServer, fields: Fields, attempts: seq<Attempt>) returns (r: Outcome, used: nat)
    requires server.Valid() && |attempts| == RETRIES
    modifies server
    ensures server.Valid() && used <= 5
    ensures server.commits == old(server.commits) + Others(attempts[..used]) + if r.Committed? then [fields] else []
    ensures forall i :: 0 <= i < used - 1 ==> !attempts[i].fails && attempts[i].others != []
    ensures match r
      case Committed => used > 0 && !attempts[used - 1].fails && attempts[used - 1].others == []
      case Errored => used > 0 && attempts[used - 1].fails
      case Exhausted => used == 5 && !attempts[used - 1].fails && attempts[used - 1].others != []
  {
    used := 0;
    while used < RETRIES
      invariant used <= RETRIES && server.Valid()
      invariant server.commits == old(server.commits) + Others(attempts[..used])
      invariant forall i :: 0 <= i < used ==> !attempts[i].fails && attempts[i].others != []
    {
      OthersOneMore(attempts, used);
      Joined(old(server.commits), Others(attempts[..used]), attempts[used].others);
      var accepted := TryOnce(server, fields, attempts[used]);
      used := used + 1;
      if accepted.None? {
        return Errored, used;
      }
      if accepted.value {
        return Committed, used;
      }
    }
    r := Exhausted;
  }
}
