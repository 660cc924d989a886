/** The recovery gate: whether recovery is still being proven, judged from a directory of evidence. */
module Gate {
  import opened Wrappers
  import Sorting

  type Time = int

  /** The name of a drill or of a compliance control. */
  datatype Name = Name(text: string)

  datatype Measured = Measured(restoreSeconds: real, rtoMet: bool, rpoMet: bool)

  datatype Evidence = Evidence(drill: Name, finishedAt: Time, verified: bool, controls: seq<Name>, measured: Measured)

  /** An evidence record and the file it came from. */
  datatype File = File(path: string, e: Evidence)

  datatype By = Drill | Control

  /** `maxAge` 0 switches the staleness check off. */
  datatype Options = Options(maxAge: Time, groupBy: By, requireSigned: bool, pinned: bool, allowUnverified: bool)

  datatype Violation = NoEvidence | LatestUnverified | NeverVerified | Stale(age: Time) | Unsigned(pinned: bool)

  datatype Status = Status(subject: Name, runs: nat, lastRun: Option<Time>, lastVerified: Option<Time>,
                           signed: bool, violations: seq<Violation>, evidence: string)
  {
    predicate Ok() {
      violations == []
    }
  }

  /** Newest first. Runs with equal finish times may come in any order. */
  predicate NewerFirst(a: File, b: File) {
    a.e.finishedAt >= b.e.finishedAt
  }

  function FirstVerified(runs: seq<File>): Option<File> {
    if runs == [] then None else if runs[0].e.verified then Some(runs[0]) else FirstVerified(runs[1..])
  }

  /** The run whose signature counts. */
  function LeansOn(latest: File, verified: Option<File>): File {
    if verified.Some? then verified.value else latest
  }

  function When(condition: bool, v: Violation): seq<Violation> {
    if condition then [v] else []
  }

  function Violations(latest: File, verified: Option<File>, opts: Options, now: Time,
                      signed: File -> bool): seq<Violation> {
    When(!latest.e.verified && !opts.allowUnverified, LatestUnverified) +
    When(opts.maxAge > 0 && verified.None?, NeverVerified) +
    (if opts.maxAge > 0 && verified.Some? && now - verified.value.e.finishedAt > opts.maxAge
     then [Stale(now - verified.value.e.finishedAt)] else []) +
    When(opts.requireSigned && !signed(LeansOn(latest, verified)), Unsigned(opts.pinned))
  }

  /** The verdict on runs that are in order. */
  function Judge(name: Name, runs: seq<File>, opts: Options, now: Time, signed: File -> bool): Status {
    if runs == [] then Status(name, 0, None, None, false, [NoEvidence], "")
    else
      var verified := FirstVerified(runs);
      Status(name, |runs|, Some(runs[0].e.finishedAt),
             if verified.Some? then Some(verified.value.e.finishedAt) else None,
             signed(LeansOn(runs[0], verified)), Violations(runs[0], verified, opts, now, signed), runs[0].path)
  }

  method FindVerified(runs: array<File>) returns (verified: Option<File>)
    ensures verified == FirstVerified(runs[..])
  {
    for i := 0 to runs.Length
      invariant FirstVerified(runs[..]) == FirstVerified(runs[i..])
    {
      if runs[i].e.verified {
        return Some(runs[i]);
      }
      assert runs[i..][1..] == runs[i + 1..];
    }
    return None;
  }

  /** Sorts the runs in place and judges them in the order that results. */
  method Evaluate(name: Name, runs: array<File>, opts: Options, now: Time, signed: File -> bool) returns (st: Status)
    modifies runs
    ensures Sorting.SortOf(runs[..], old(runs[..]), NewerFirst)
    ensures st == Judge(name, runs[..], opts, now, signed)
  {
    if runs.Length == 0 {
      return Status(name, 0, None, None, false, [NoEvidence], "");
    }
    Sorting.Sort(runs, NewerFirst);
    var latest := runs[0];
    var verified := FindVerified(runs);
    var violations := [];
    if !latest.e.verified && !opts.allowUnverified {
      violations := violations + [LatestUnverified];
    }
    if opts.maxAge > 0 {
      if verified.None? {
        violations := violations + [NeverVerified];
      } else if now - verified.value.e.finishedAt > opts.maxAge {
        violations := violations + [Stale(now - verified.value.e.finishedAt)];
      }
    }
    var leaning := if verified.Some? then verified.value else latest;
    if opts.requireSigned && !signed(leaning) {
      violations := violations + [Unsigned(opts.pinned)];
    }
    st := Status(name, runs.Length, Some(latest.e.finishedAt),
                 if verified.Some? then Some(verified.value.e.finishedAt) else None,
                 signed(leaning), violations, latest.path);
  }

  // ---- What the verdict means, whatever the order

  predicate Newest(runs: seq<File>, r: File) {
    r in runs && forall x <- runs :: x.e.finishedAt <= r.e.finishedAt
  }

  predicate NewestVerified(runs: seq<File>, r: File) {
    r in runs && r.e.verified && forall x <- runs :: x.e.verified ==> x.e.finishedAt <= r.e.finishedAt
  }

  predicate AnyVerified(runs: seq<File>) {
    exists r <- runs :: r.e.verified
  }

  /** The runs whose signature may count: the newest verified ones, else the newest ones. */
  predicate MayLean(runs: seq<File>, r: File) {
    if AnyVerified(runs) then NewestVerified(runs, r) else Newest(runs, r)
  }

  predicate FreshEnough(runs: seq<File>, opts: Options, now: Time) {
    opts.maxAge > 0 ==> exists r <- runs :: r.e.verified && now - r.e.finishedAt <= opts.maxAge
  }

  /** The objective on runs without ties at the top: a run exists, the newest one verified (or that is
      waived), some verified run is young enough, and the run that counts is signed. */
  predicate Meets(runs: seq<File>, opts: Options, now: Time, signed: File -> bool) {
    && runs != []
    && (exists r <- runs :: Newest(runs, r) && (r.e.verified || opts.allowUnverified))
    && FreshEnough(runs, opts, now)
    && (opts.requireSigned ==> exists r <- runs :: MayLean(runs, r) && signed(r))
  }

  /** The same demanded of every run that ties could bring to the top. */
  predicate AlwaysMeets(runs: seq<File>, opts: Options, now: Time, signed: File -> bool) {
    && runs != []
    && (opts.allowUnverified || forall r <- runs :: Newest(runs, r) ==> r.e.verified)
    && FreshEnough(runs, opts, now)
    && (opts.requireSigned ==> forall r <- runs :: MayLean(runs, r) ==> signed(r))
  }

  predicate DistinctTimes(runs: seq<File>) {
    forall a <- runs, b <- runs :: a.e.finishedAt == b.e.finishedAt ==> a == b
  }

  /** Which runs can be the latest and the first verified one, by the declarative view. */
  predicate Leads(runs: seq<File>, latest: File, verified: Option<File>) {
    && Newest(runs, latest)
    && (match verified case Some(v) => NewestVerified(runs, v) case None => !AnyVerified(runs))
    && (latest.e.verified ==> verified == Some(latest))
  }

  lemma {:induction false} FirstVerifiedLeads(s: seq<File>)
    requires Sorting.Sorted(s, NewerFirst)
    ensures match FirstVerified(s) case Some(v) => NewestVerified(s, v) case None => !AnyVerified(s)
  {
    if s != [] && !s[0].e.verified {
      assert forall i, j :: 0 <= i < j < |s[1..]| ==> s[1..][i] == s[i + 1] && s[1..][j] == s[j + 1];
      FirstVerifiedLeads(s[1..]);
      assert forall x <- s :: x == s[0] || x in s[1..];
      assert forall x <- s[1..] :: x in s;
    }
  }

  /** Whatever order the sort leaves, the runs the gate looks at are leaders. */
  lemma SortedRunsLead(runs: seq<File>, s: seq<File>)
    requires runs != [] && Sorting.SortOf(s, runs, NewerFirst)
    ensures s != [] && Leads(runs, s[0], FirstVerified(s))
  {
    Sorting.SameElements(s, runs);
    FirstVerifiedLeads(s);
    assert s[0] in s;
    assert AnyVerified(s) <==> AnyVerified(runs);
    assert forall x <- s :: x == s[0] || NewerFirst(s[0], x);
  }

  /** Sorting by time, with two given runs preferred among equals. */
  function Rank(latest: File, verified: Option<File>, x: File): int {
    4 * x.e.finishedAt + (if x == latest then 2 else 0) + (if verified == Some(x) then 1 else 0)
  }

  /** Every pair of leaders is what the gate looks at after some outcome of the sort. */
  lemma LeadersCanComeFirst(runs: seq<File>, latest: File, verified: Option<File>) returns (s: seq<File>)
    requires Leads(runs, latest, verified)
    ensures Sorting.SortOf(s, runs, NewerFirst) && s != [] && s[0] == latest && FirstVerified(s) == verified
  {
    var le := (a: File, b: File) => Rank(latest, verified, a) >= Rank(latest, verified, b);
    s := Sorting.SortExists(runs, le);
    Sorting.SameElements(s, runs);
    assert Sorting.Sorted(s, NewerFirst);
    var k :| 0 <= k < |s| && s[k] == latest;
    assert s[0] == latest by {
      if k != 0 {
        assert le(s[0], s[k]);
        assert s[0] in runs;
      }
    }
    SortedRunsLead(runs, s);
    if verified.Some? {
      FirstVerifiedIsFirst(s, verified.value, le);
    }
  }

  lemma {:induction false} FirstVerifiedIsFirst(s: seq<File>, v: File, le: (File, File) -> bool)
    requires v in s && v.e.verified && Sorting.Sorted(s, le)
    ensures FirstVerified(s).Some? && (FirstVerified(s).value == v || le(FirstVerified(s).value, v))
  {
    if !s[0].e.verified {
      assert forall i, j :: 0 <= i < j < |s[1..]| ==> s[1..][i] == s[i + 1] && s[1..][j] == s[j + 1];
      FirstVerifiedIsFirst(s[1..], v, le);
    }
  }

  predicate Passes(latest: File, verified: Option<File>, opts: Options, now: Time, signed: File -> bool) {
    Violations(latest, verified, opts, now, signed) == []
  }

  lemma FreshestDecides(runs: seq<File>, v: File, opts: Options, now: Time)
    requires NewestVerified(runs, v)
    ensures FreshEnough(runs, opts, now) <==> (opts.maxAge > 0 ==> now - v.e.finishedAt <= opts.maxAge)
  {
  }

  /** What one pair of leaders is held to. */
  lemma PassesMeans(runs: seq<File>, latest: File, verified: Option<File>, opts: Options, now: Time,
                    signed: File -> bool)
    requires Leads(runs, latest, verified)
    ensures MayLean(runs, LeansOn(latest, verified))
    ensures Passes(latest, verified, opts, now, signed) <==>
      && (latest.e.verified || opts.allowUnverified) && FreshEnough(runs, opts, now)
      && (opts.requireSigned ==> signed(LeansOn(latest, verified)))
  {
    if verified.Some? {
      FreshestDecides(runs, verified.value, opts, now);
    }
  }

  /** A run that ties could make the one that counts is the one that counts for some pair of leaders. */
  lemma LeanerLeads(runs: seq<File>, r: File) returns (latest: File, verified: Option<File>)
    requires runs != [] && MayLean(runs, r)
    ensures Leads(runs, latest, verified) && LeansOn(latest, verified) == r
  {
    if !AnyVerified(runs) {
      latest, verified := r, None;
    } else if Newest(runs, r) {
      latest, verified := r, Some(r);
    } else {
      latest := NewestOf(runs);
      verified := Some(r);
    }
  }

  lemma NewestOf(runs: seq<File>) returns (r: File)
    requires runs != []
    ensures Newest(runs, r)
  {
    var s := Sorting.SortExists(runs, NewerFirst);
    Sorting.SameElements(s, runs);
    SortedRunsLead(runs, s);
    r := s[0];
  }

  lemma LatestLeads(runs: seq<File>, latest: File) returns (verified: Option<File>)
    requires Newest(runs, latest)
    ensures Leads(runs, latest, verified)
  {
    var s := Sorting.SortExists(runs, NewerFirst);
    Sorting.SameElements(s, runs);
    SortedRunsLead(runs, s);
    verified := if latest.e.verified then Some(latest) else FirstVerified(s);
  }

  /** Exactly when the gate passes a subject, ties or not: every order a sort may leave is judged OK if and only
      if every run that ties could bring to the top meets the objective. */
  lemma OkInEveryOrder(name: Name, runs: seq<File>, opts: Options, now: Time, signed: File -> bool)
    ensures AlwaysMeets(runs, opts, now, signed) <==>
      runs != [] && forall s :: Sorting.SortOf(s, runs, NewerFirst) ==> Judge(name, s, opts, now, signed).Ok()
  {
    if AlwaysMeets(runs, opts, now, signed) {
      forall s | Sorting.SortOf(s, runs, NewerFirst) ensures Judge(name, s, opts, now, signed).Ok() {
        SortedRunsLead(runs, s);
        PassesMeans(runs, s[0], FirstVerified(s), opts, now, signed);
      }
    } else if runs != [] {
      var latest, verified := FailingLeaders(runs, opts, now, signed);
      var s := LeadersCanComeFirst(runs, latest, verified);
      assert !Judge(name, s, opts, now, signed).Ok();
    }
  }

  /** The run that counts when this one is the latest. */
  predicate LeansAfter(runs: seq<File>, latest: File, lean: File) {
    if latest.e.verified then lean == latest
    else if AnyVerified(runs) then NewestVerified(runs, lean) else lean == latest
  }

  /** The objective demanded of some run that ties could bring to the top, together with one that may then count. */
  predicate SometimesMeets(runs: seq<File>, opts: Options, now: Time, signed: File -> bool) {
    && FreshEnough(runs, opts, now)
    && exists latest <- runs ::
         && Newest(runs, latest) && (latest.e.verified || opts.allowUnverified)
         && (opts.requireSigned ==> exists lean <- runs :: LeansAfter(runs, latest, lean) && signed(lean))
  }

  /** Leaders for a latest run and one that counts after it. */
  lemma LeadersFor(runs: seq<File>, latest: File, lean: File) returns (verified: Option<File>)
    requires Newest(runs, latest) && LeansAfter(runs, latest, lean)
    ensures Leads(runs, latest, verified) && LeansOn(latest, verified) == lean
  {
    verified := if AnyVerified(runs) then Some(lean) else None;
  }

  lemma SomeoneLeads(runs: seq<File>, latest: File) returns (lean: File)
    requires Newest(runs, latest)
    ensures lean in runs && LeansAfter(runs, latest, lean)
  {
    var verified := LatestLeads(runs, latest);
    lean := LeansOn(latest, verified);
  }

  /** Some order that a sort may leave is judged OK if and only if some runs that ties could bring to the top meet the
      objective. */
  lemma OkInSomeOrder(name: Name, runs: seq<File>, opts: Options, now: Time, signed: File -> bool)
    ensures SometimesMeets(runs, opts, now, signed) <==>
      exists s :: Sorting.SortOf(s, runs, NewerFirst) && Judge(name, s, opts, now, signed).Ok()
  {
    if SometimesMeets(runs, opts, now, signed) {
      var s := PassingOrder(name, runs, opts, now, signed);
    }
    if s :| Sorting.SortOf(s, runs, NewerFirst) && Judge(name, s, opts, now, signed).Ok() {
      Sorting.SameElements(s, runs);
      SortedRunsLead(runs, s);
      PassesMeans(runs, s[0], FirstVerified(s), opts, now, signed);
      var lean := LeansOn(s[0], FirstVerified(s));
      assert s[0] in runs && lean in runs && LeansAfter(runs, s[0], lean);
    }
  }

  lemma PassingOrder(name: Name, runs: seq<File>, opts: Options, now: Time, signed: File -> bool) returns (s: seq<File>)
    requires SometimesMeets(runs, opts, now, signed)
    ensures Sorting.SortOf(s, runs, NewerFirst) && Judge(name, s, opts, now, signed).Ok()
  {
    var latest :| latest in runs && Newest(runs, latest) && (latest.e.verified || opts.allowUnverified)
      && (opts.requireSigned ==> exists lean <- runs :: LeansAfter(runs, latest, lean) && signed(lean));
    var lean := SomeoneLeads(runs, latest);
    if opts.requireSigned {
      lean :| lean in runs && LeansAfter(runs, latest, lean) && signed(lean);
    }
    var verified := LeadersFor(runs, latest, lean);
    PassesMeans(runs, latest, verified, opts, now, signed);
    s := LeadersCanComeFirst(runs, latest, verified);
  }

  /** Exactly when luck decides: one order passes and another fails if and only if some of the runs that ties could
      bring to the top meet the objective and some do not. Otherwise the verdict does not depend on the order. */
  lemma WhenTiesDecide(name: Name, runs: seq<File>, opts: Options, now: Time, signed: File -> bool)
    ensures (SometimesMeets(runs, opts, now, signed) && !AlwaysMeets(runs, opts, now, signed)) <==>
      exists s1, s2 :: Sorting.SortOf(s1, runs, NewerFirst) && Sorting.SortOf(s2, runs, NewerFirst)
        && Judge(name, s1, opts, now, signed).Ok() && !Judge(name, s2, opts, now, signed).Ok()
  {
    OkInEveryOrder(name, runs, opts, now, signed);
    OkInSomeOrder(name, runs, opts, now, signed);
  }

  lemma FailingLeaders(runs: seq<File>, opts: Options, now: Time, signed: File -> bool)
    returns (latest: File, verified: Option<File>)
    requires runs != [] && !AlwaysMeets(runs, opts, now, signed)
    ensures Leads(runs, latest, verified) && !Passes(latest, verified, opts, now, signed)
  {
    if r :| r in runs && Newest(runs, r) && !r.e.verified && !opts.allowUnverified {
      latest := r;
      verified := LatestLeads(runs, latest);
    } else if r :| r in runs && MayLean(runs, r) && !signed(r) && opts.requireSigned {
      latest, verified := LeanerLeads(runs, r);
    } else {
      latest := NewestOf(runs);
      verified := LatestLeads(runs, latest);
    }
    PassesMeans(runs, latest, verified, opts, now, signed);
  }

  /** With distinct finish times there is one order, and the gate decides exactly the declared objective. */
  lemma GateDecidesTheObjective(name: Name, runs: seq<File>, s: seq<File>, opts: Options, now: Time,
                                signed: File -> bool)
    requires DistinctTimes(runs) && Sorting.SortOf(s, runs, NewerFirst)
    ensures Judge(name, s, opts, now, signed).Ok() <==> Meets(runs, opts, now, signed)
  {
    Sorting.SameElements(s, runs);
    if runs != [] {
      SortedRunsLead(runs, s);
      PassesMeans(runs, s[0], FirstVerified(s), opts, now, signed);
      var lean := LeansOn(s[0], FirstVerified(s));
      assert lean in runs && s[0] in runs;
      assert forall r <- runs :: Newest(runs, r) ==> r == s[0];
      assert forall r <- runs :: MayLean(runs, r) ==> r == lean;
    } else {
      assert s == [];
    }
  }

  /** Without ties the order of the evidence files does not matter. */
  lemma OrderOfFilesIsIrrelevant(name: Name, files1: seq<File>, files2: seq<File>, s1: seq<File>, s2: seq<File>,
                                 opts: Options, now: Time, signed: File -> bool)
    requires DistinctTimes(files1) && multiset(files1) == multiset(files2)
    requires Sorting.SortOf(s1, files1, NewerFirst) && Sorting.SortOf(s2, files2, NewerFirst)
    ensures Judge(name, s1, opts, now, signed) == Judge(name, s2, opts, now, signed)
  {
    Sorting.SameElements(s1, files1);
    Sorting.SameElements(s2, files1);
    if files1 != [] {
      SortedRunsLead(files1, s1);
      SortedRunsLead(files1, s2);
    }
  }

  /** With ties it can: one verified and one failed run that finished together pass or fail by luck. */
  lemma TiesCanDecide(name: Name, signed: File -> bool)
    ensures var m := Measured(1.0, true, true);
            var a := File("a", Evidence(Name("d"), 0, true, [], m));
            var b := File("b", Evidence(Name("d"), 0, false, [], m));
            var opts := Options(0, Drill, false, false, false);
            && Sorting.SortOf([a, b], [a, b], NewerFirst) && Sorting.SortOf([b, a], [a, b], NewerFirst)
            && Judge(name, [a, b], opts, 0, signed).Ok() && !Judge(name, [b, a], opts, 0, signed).Ok()
  {
    var m := Measured(1.0, true, true);
    var a := File("a", Evidence(Name("d"), 0, true, [], m));
    var b := File("b", Evidence(Name("d"), 0, false, [], m));
    var good: seq<File> := [a, b];
    var bad: seq<File> := [b, a];
    assert multiset(bad) == multiset(good);
  }

  /** Asked for both freshness and a signature, the gate has one single run that is verified, fresh and signed. */
  lemma OneRunIsTheWitness(name: Name, runs: seq<File>, s: seq<File>, opts: Options, now: Time, signed: File -> bool)
    requires Sorting.SortOf(s, runs, NewerFirst) && Judge(name, s, opts, now, signed).Ok()
    requires opts.maxAge > 0 && opts.requireSigned
    ensures exists r <- runs :: r.e.verified && now - r.e.finishedAt <= opts.maxAge && signed(r)
  {
    Sorting.SameElements(s, runs);
    if runs != [] {
      SortedRunsLead(runs, s);
    }
  }

  /** With no age limit and failures waived, nothing need ever have verified. */
  lemma WaivedGateNeedsNoVerifiedRun(name: Name, s: seq<File>, opts: Options, now: Time, signed: File -> bool)
    requires opts.maxAge <= 0 && opts.allowUnverified && !opts.requireSigned
    ensures Judge(name, s, opts, now, signed).Ok() <==> s != []
  {
  }

  /** Violations are the same up to the age they mention. */
  function KindOf(v: Violation): Violation {
    if v.Stale? then Stale(0) else v
  }

  /** Each violation and the condition it reports. */
  lemma WhatIsReported(latest: File, verified: Option<File>, opts: Options, now: Time, signed: File -> bool,
                       v: Violation)
    ensures v in Violations(latest, verified, opts, now, signed) <==> match v {
      case NoEvidence => false
      case LatestUnverified => !latest.e.verified && !opts.allowUnverified
      case NeverVerified => opts.maxAge > 0 && verified.None?
      case Stale(age) =>
        opts.maxAge > 0 && verified.Some? && age == now - verified.value.e.finishedAt && age > opts.maxAge
      case Unsigned(pinned) => opts.requireSigned && !signed(LeansOn(latest, verified)) && pinned == opts.pinned
    }
  {
    var a := When(!latest.e.verified && !opts.allowUnverified, LatestUnverified);
    var b := When(opts.maxAge > 0 && verified.None?, NeverVerified);
    var d := When(opts.requireSigned && !signed(LeansOn(latest, verified)), Unsigned(opts.pinned));
    assert forall x <- a :: x == LatestUnverified;
    assert forall x <- b :: x == NeverVerified;
    assert forall x <- d :: x == Unsigned(opts.pinned);
  }

  /** What a status tells of a subject that has runs: how many, when a newest one ended and where its record is, when a
      newest verified one ended, whether the run leaned on is signed, and each shortcoming under its own name. */
  predicate Tells(st: Status, runs: seq<File>, latest: File, lean: File, opts: Options, signed: File -> bool) {
    && Newest(runs, latest) && LeansAfter(runs, latest, lean)
    && st.runs == |runs| && st.lastRun == Some(latest.e.finishedAt) && st.evidence == latest.path
    && st.lastVerified == (if AnyVerified(runs) then Some(lean.e.finishedAt) else None)
    && st.signed == signed(lean)
    && (NoEvidence !in st.violations)
    && (LatestUnverified in st.violations <==> !latest.e.verified && !opts.allowUnverified)
    && (NeverVerified in st.violations <==> opts.maxAge > 0 && !AnyVerified(runs))
    && (Unsigned(opts.pinned) in st.violations <==> opts.requireSigned && !st.signed)
    && Unsigned(!opts.pinned) !in st.violations
  }

  /** It is too old exactly when the newest verified run is older than asked, and then its age is given. */
  ghost predicate TellsAge(st: Status, opts: Options, now: Time) {
    forall age :: Stale(age) in st.violations <==>
      opts.maxAge > 0 && st.lastVerified == Some(now - age) && age > opts.maxAge
  }

  /** Whatever order a sort leaves, the status tells what the runs are. */
  lemma StatusTells(name: Name, runs: seq<File>, s: seq<File>, opts: Options, now: Time, signed: File -> bool)
    requires runs != [] && Sorting.SortOf(s, runs, NewerFirst)
    ensures var st := Judge(name, s, opts, now, signed);
      && st.subject == name && TellsAge(st, opts, now)
      && exists latest <- runs, lean <- runs :: Tells(st, runs, latest, lean, opts, signed)
  {
    Sorting.SameElements(s, runs);
    SortedRunsLead(runs, s);
    var verified := FirstVerified(s);
    var lean := LeansOn(s[0], verified);
    forall v {
      WhatIsReported(s[0], verified, opts, now, signed, v);
    }
    assert s[0] in runs && lean in runs;
    assert Tells(Judge(name, s, opts, now, signed), runs, s[0], lean, opts, signed);
  }

  /** Time only adds violations. */
  lemma TimeOnlyAddsViolations(name: Name, s: seq<File>, opts: Options, now: Time, later: Time, signed: File -> bool,
                               v: Violation)
    returns (v': Violation)
    requires now <= later && v in Judge(name, s, opts, now, signed).violations
    ensures v' in Judge(name, s, opts, later, signed).violations && KindOf(v') == KindOf(v)
  {
    v' := v;
    if s != [] {
      var verified := FirstVerified(s);
      WhatIsReported(s[0], verified, opts, now, signed, v);
      v' := if v.Stale? then Stale(later - verified.value.e.finishedAt) else v;
      WhatIsReported(s[0], verified, opts, later, signed, v');
    }
  }

  /** One more run, newer than all, verified and validly signed, never turns an OK subject into a failing one. */
  lemma GoodRunNeverHurts(name: Name, runs: seq<File>, s: seq<File>, r: File, s': seq<File>,
                          opts: Options, now: Time, signed: File -> bool)
    requires Sorting.SortOf(s, runs, NewerFirst) && Judge(name, s, opts, now, signed).Ok()
    requires r.e.verified && signed(r) && forall x <- runs :: x.e.finishedAt < r.e.finishedAt
    requires Sorting.SortOf(s', runs + [r], NewerFirst)
    ensures Judge(name, s', opts, now, signed).Ok() && s'[0] == r
  {
    Sorting.SameElements(s, runs);
    var more := runs + [r];
    assert r in more;
    SortedRunsLead(more, s');
    assert forall x <- more :: x in runs || x == r;
    assert s'[0] == r;
    if runs != [] {
      SortedRunsLead(runs, s);
      PassesMeans(runs, s[0], FirstVerified(s), opts, now, signed);
      PassesMeans(more, s'[0], FirstVerified(s'), opts, now, signed);
      assert forall x <- runs :: x in more;
    }
  }
}
