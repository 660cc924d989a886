/** The verdict of a drill: when evidence may say that recovery is verified. */
module Verdict {
  import opened Wrappers
  import opened Checks
  import opened Verify
  import Pods = PodsReady

  datatype Objectives = Objectives(rto: Nanos, rpo: Nanos)

  /** How the restore went: an error if it failed, the time it took (0 when unknown), and the age of the backup. */
  datatype Outcome = Outcome(error: Option<string>, duration: Nanos, backupAge: Nanos)

  /** The checks that inspect restored data, by the name their results carry. */
  predicate IsDataName(name: Option<Kind>) {
    match name
    case Some(RowCount) => true
    case Some(Checksum) => true
    case Some(Smoke) => true
    case Some(Canary) => true
    case Some(PodsReady) => true
    case Some(ResourceCount) => true
    case _ => false
  }

  predicate MeetsObjectives(o: Outcome, obj: Objectives) {
    o.error.None? && o.duration <= obj.rto && o.backupAge <= obj.rpo
  }

  predicate AllPassed(results: seq<Result>) {
    forall r <- results :: r.passed && !r.skipped
  }

  predicate DataProven(results: seq<Result>) {
    exists r <- results :: r.passed && IsDataName(r.name)
  }

  class Evidence {
    var rtoMet: bool
    var rpoMet: bool
    var verified: bool
    var checks: seq<Result>
    var error: Option<string>

    constructor ()
      ensures checks == [] && !verified && error.None?
    {
      rtoMet, rpoMet, verified, checks, error := false, false, false, [], None;
    }

    method Finalize(o: Outcome, obj: Objectives)
      modifies this
      ensures rtoMet == (o.error.None? && o.duration <= obj.rto)
      ensures rpoMet == (o.backupAge <= obj.rpo)
      ensures verified <==> MeetsObjectives(o, obj) && AllPassed(checks) && DataProven(checks)
      ensures checks == old(checks)
      ensures error == if o.error.Some? then o.error else old(error)
    {
      rtoMet := o.error.None? && o.duration <= obj.rto;
      rpoMet := o.backupAge <= obj.rpo;
      verified := o.error.None? && rtoMet && rpoMet;
      var dataProven := false;
      for i := 0 to |checks|
        invariant checks == old(checks) && error == old(error)
        invariant rtoMet == (o.error.None? && o.duration <= obj.rto) && rpoMet == (o.backupAge <= obj.rpo)
        invariant verified <==> MeetsObjectives(o, obj) && AllPassed(checks[..i])
        invariant dataProven <==> DataProven(checks[..i])
      {
        var r := checks[i];
        assert checks[..i + 1] == checks[..i] + [r];
        if !r.passed && !r.skipped {
          verified := false;
        }
        if r.skipped {
          verified := false;
        }
        if r.passed && IsDataName(r.name) {
          dataProven := true;
        }
      }
      assert checks[..|checks|] == checks;
      if !dataProven {
        verified := false;
      }
      if o.error.Some? {
        error := o.error;
      }
    }

    /** The tail of a drill: run the checks against what was restored, then decide. For a validated drill the
        verdict is exactly what it claims, whatever the engine and the cluster answer. */
    method Conclude(drill: seq<Check>, velero: bool, worlds: nat -> World, dc: Context, o: Outcome, obj: Objectives)
      requires dc.restoreFailed == o.error.Some? && dc.backupAge == o.backupAge
      requires forall i: nat :: Sane(worlds(i))
      modifies this
      ensures ValidChecks(drill, velero) ==>
        (verified <==> MeetsObjectives(o, obj) && EveryCheckHolds(drill, worlds, dc))
      ensures verified ==> exists i :: 0 <= i < |drill| && GotItsAnswer(drill[i], worlds(i), dc)
      ensures forall sum: string :: ValidChecks(drill, velero) && NothingAnywhere(worlds, velero, sum) ==>
        (verified <==> (MeetsObjectives(o, obj) && forall c <- drill :: HoldsOnNothing(c, dc, sum)))
    {
      checks := RunChecks(drill, worlds, dc);
      Finalize(o, obj);
      if ValidChecks(drill, velero) {
        VerdictIsExact(checks, drill, velero, worlds, dc, o, obj);
        forall sum: string | NothingAnywhere(worlds, velero, sum) {
          WhenNothingIsVerified(checks, drill, velero, worlds, dc, o, obj, sum);
        }
      }
      if verified {
        VerifiedMeansAnAnswer(checks, drill, worlds, dc);
      }
    }
  }

  /** A check holds by its own meaning: the one field that is set is borne out by the world. */
  ghost predicate CheckHolds(c: Check, w: World, dc: Context) {
    exists k: Kind :: c.Has(k) && FirstKind(c) == Some(k) && Proves(c, k, w, dc)
  }

  ghost predicate EveryCheckHolds(checks: seq<Check>, worlds: nat -> World, dc: Context) {
    forall i :: 0 <= i < |checks| ==> CheckHolds(checks[i], worlds(i), dc)
  }

  /** A check that inspects restored data got the answer it asked for, after a restore that succeeded. What it asked
      for may be nothing: see `HoldsOnNothing`. */
  ghost predicate GotItsAnswer(c: Check, w: World, dc: Context) {
    exists k: Kind :: c.Has(k) && IsData(k) && !dc.restoreFailed && Proves(c, k, w, dc)
  }

  lemma NamesAgree(k: Kind)
    ensures IsDataName(Some(k)) <==> IsData(k)
  {
  }

  lemma ValidRunsAsProven(c: Check)
    requires c.Valid()
    ensures FirstKind(c).Some?
    ensures IsDataName(FirstKind(c)) <==> c.ProvesData()
  {
    var k: Kind :| c.Has(k) && c.Complete(k) && forall j: Kind :: c.Has(j) ==> j == k;
    assert FirstKind(c) == Some(k);
    assert c.Has(RowCount) || c.Has(Checksum) || c.Has(Smoke) || c.Has(Canary) <==> c.IsSql();
    assert c.Has(PodsReady) || c.Has(ResourceCount) <==> c.IsK8s();
  }

  lemma FairPassed(r: Result, c: Check, w: World, dc: Context)
    requires Fair(r, c, w, dc)
    ensures r.passed && !r.skipped <==> CheckHolds(c, w, dc)
  {
  }

  lemma AllPassedMeans(results: seq<Result>, checks: seq<Check>, worlds: nat -> World, dc: Context)
    requires FairAll(results, checks, worlds, dc)
    ensures AllPassed(results) <==> EveryCheckHolds(checks, worlds, dc)
  {
    forall i | 0 <= i < |checks|
      ensures results[i].passed && !results[i].skipped <==> CheckHolds(checks[i], worlds(i), dc)
    {
      FairPassed(results[i], checks[i], worlds(i), dc);
    }
    if AllPassed(results) {
      forall i | 0 <= i < |checks| ensures CheckHolds(checks[i], worlds(i), dc) {
        assert results[i] in results;
      }
    }
  }

  /** For a validated drill, whatever happens, the verdict is: the restore worked, both objectives are met and
      every check holds. The data guard takes nothing away. */
  lemma VerdictIsExact(results: seq<Result>, checks: seq<Check>, velero: bool, worlds: nat -> World, dc: Context,
                       o: Outcome, obj: Objectives)
    requires ValidChecks(checks, velero) && FairAll(results, checks, worlds, dc)
    ensures (MeetsObjectives(o, obj) && AllPassed(results) && DataProven(results)) <==>
      MeetsObjectives(o, obj) && EveryCheckHolds(checks, worlds, dc)
    ensures AllPassed(results) ==> DataProven(results)
  {
    AllPassedMeans(results, checks, worlds, dc);
    var c :| c in checks && c.ProvesData();
    var i :| 0 <= i < |checks| && checks[i] == c;
    assert Suits(c, velero);
    ValidRunsAsProven(c);
    assert Fair(results[i], checks[i], worlds(i), dc);
    assert results[i] in results;
  }

  /** Without validation too, a verified verdict rests on a data check that got the answer it asked for. */
  lemma VerifiedMeansAnAnswer(results: seq<Result>, checks: seq<Check>, worlds: nat -> World, dc: Context)
    requires FairAll(results, checks, worlds, dc) && AllPassed(results) && DataProven(results)
    ensures exists i :: 0 <= i < |checks| && GotItsAnswer(checks[i], worlds(i), dc)
  {
    var r :| r in results && r.passed && IsDataName(r.name);
    var i :| 0 <= i < |results| && results[i] == r;
    assert Fair(results[i], checks[i], worlds(i), dc);
    NamesAgree(r.name.value);
    assert Proves(checks[i], r.name.value, worlds(i), dc);
    assert GotItsAnswer(checks[i], worlds(i), dc);
  }

  // ---- A restore that brought back nothing

  /** A database without rows, in which the checksum of nothing is `sum`. */
  ghost predicate NoRows(e: Engine, sum: string) {
    && (forall q: string :: e.count(q) == Some(0) && e.rows(q) == Some(0))
    && (forall q: string :: e.scalar(q) == None)
    && (forall t: string, c: string :: e.checksum(t, c) == Some(sum))
  }

  /** A namespace without objects. */
  ghost predicate NoObjects(k: Kube) {
    && (forall i: nat :: k.pods.list(i) == Some([]))
    && (forall r: ResourceKind :: k.count(r) == Some(0))
  }

  /** What a drill of this kind meets when the restore brought back nothing. */
  ghost predicate NothingThere(w: World, velero: bool, sum: string) {
    if velero then w.kube.Some? && NoObjects(w.kube.value) else w.engine.Some? && NoRows(w.engine.value, sum)
  }

  ghost predicate NothingAnywhere(worlds: nat -> World, velero: bool, sum: string) {
    forall i: nat :: NothingThere(worlds(i), velero, sum)
  }

  /** A check that nothing satisfies: to be told from the drill file. A canary and ready pods are never of this kind. */
  predicate HoldsOnNothing(c: Check, dc: Context, sum: string) {
    match FirstKind(c)
    case Some(RestoreSucceeded) => true
    case Some(Freshness) => dc.backupAge <= c.maxAge.value
    case Some(RowCount) => c.rowCount.value.min <= 0
    case Some(Checksum) =>
      var x := c.checksum.value;
      dc.identifier(x.table) && dc.identifier(x.column) && (|x.expected| == 0 || x.expected == sum)
    case Some(Smoke) =>
      var test := dc.rowTest(DefaultRows(c.smoke.value.expectRows));
      test.Some? && Holds(0, test.value)
    case Some(ResourceCount) => c.resourceCount.value.kind != OtherKind && c.resourceCount.value.min <= 0
    case _ => false
  }

  lemma NothingDecides(c: Check, velero: bool, w: World, dc: Context, sum: string)
    requires Suits(c, velero) && NothingThere(w, velero, sum) && !dc.restoreFailed
    ensures CheckHolds(c, w, dc) <==> HoldsOnNothing(c, dc, sum)
  {
    if FirstKind(c) == Some(PodsReady) {
      var pods := w.kube.value.pods;
      forall i: nat ensures !Pods.Stable(pods, i) {
        assert !Pods.Good(pods.list(i));
      }
      assert !Pods.StaysReady(pods, pods.clock(0) + c.podsTimeout.value);
    }
  }

  /** Exactly when a validated drill reports an empty restore as verified: the objectives are met, and each of its
      checks is satisfied by nothing. */
  lemma WhenNothingIsVerified(results: seq<Result>, checks: seq<Check>, velero: bool, worlds: nat -> World, dc: Context,
                              o: Outcome, obj: Objectives, sum: string)
    requires ValidChecks(checks, velero) && FairAll(results, checks, worlds, dc)
    requires dc.restoreFailed == o.error.Some? && NothingAnywhere(worlds, velero, sum)
    ensures (MeetsObjectives(o, obj) && AllPassed(results) && DataProven(results)) <==>
      (MeetsObjectives(o, obj) && forall c <- checks :: HoldsOnNothing(c, dc, sum))
  {
    VerdictIsExact(results, checks, velero, worlds, dc, o, obj);
    if o.error.None? {
      AllOnNothing(checks, velero, worlds, dc, sum);
    }
  }

  lemma AllOnNothing(checks: seq<Check>, velero: bool, worlds: nat -> World, dc: Context, sum: string)
    requires ValidChecks(checks, velero) && NothingAnywhere(worlds, velero, sum) && !dc.restoreFailed
    ensures EveryCheckHolds(checks, worlds, dc) <==> forall c <- checks :: HoldsOnNothing(c, dc, sum)
  {
    forall i | 0 <= i < |checks| ensures CheckHolds(checks[i], worlds(i), dc) <==> HoldsOnNothing(checks[i], dc, sum) {
      assert Suits(checks[i], velero);
      NothingDecides(checks[i], velero, worlds(i), dc, sum);
    }
    if forall c <- checks :: HoldsOnNothing(c, dc, sum) {
      forall i | 0 <= i < |checks| ensures CheckHolds(checks[i], worlds(i), dc) {
        assert checks[i] in checks;
      }
    }
  }

  /** One canary, or a wait for pods, and nothing is never verified. */
  lemma CanaryCatchesNothing(c: Check, dc: Context, sum: string)
    requires FirstKind(c) == Some(Canary) || FirstKind(c) == Some(PodsReady)
    ensures !HoldsOnNothing(c, dc, sum)
  {
  }

  /** It happens: a row count without a minimum is all that validation asks for, and 0 rows satisfy it. */
  lemma RowCountWithoutMinimum(w: World, dc: Context, sum: string) returns (c: Check)
    requires NothingThere(w, false, sum) && !dc.restoreFailed
    ensures c == Check(false, None, Some(RowCountCheck("select count(*) from t", 0)), None, None, None, None, None)
    ensures ValidChecks([c], false) && EveryCheckHolds([c], (i: nat) => w, dc)
  {
    c := Check(false, None, Some(RowCountCheck("select count(*) from t", 0)), None, None, None, None, None);
    assert c.Has(RowCount) && c.Complete(RowCount) && c.Valid();
    assert c in [c] && Suits(c, false);
    NothingDecides(c, false, w, dc, sum);
  }

  /** Exactly when the guard decides an unvalidated drill: every check holds and none of them is run as a data check. */
  lemma WhenTheGuardDecides(results: seq<Result>, checks: seq<Check>, worlds: nat -> World, dc: Context)
    requires FairAll(results, checks, worlds, dc) && AllPassed(results)
    ensures !DataProven(results) <==> forall c <- checks :: !IsDataName(FirstKind(c))
  {
    if !DataProven(results) {
      forall c | c in checks ensures !IsDataName(FirstKind(c)) {
        var i :| 0 <= i < |checks| && checks[i] == c;
        assert Fair(results[i], checks[i], worlds(i), dc);
        assert results[i] in results;
      }
    } else {
      var r :| r in results && r.passed && IsDataName(r.name);
      var i :| 0 <= i < |results| && results[i] == r;
      assert Fair(results[i], checks[i], worlds(i), dc);
      assert checks[i] in checks;
    }
  }

  /** It is the rule of one field per check that validation cannot do without: this check counts as proving data,
      yet runs as restoreSucceeded and never looks at any. */
  lemma TwoFieldsHideTheData(w: World, dc: Context, r: Result)
    requires !dc.restoreFailed
    requires Fair(r, Check(true, None, Some(RowCountCheck("q", 1)), None, None, None, None, None), w, dc)
    ensures Check(true, None, Some(RowCountCheck("q", 1)), None, None, None, None, None).ProvesData()
    ensures AllPassed([r]) && !DataProven([r])
  {
    assert [r][0] == r;
  }

  /** A validated Velero drill asks the cluster only, any other validated drill the engine only. */
  lemma ChecksSuitTheDriver(checks: seq<Check>, velero: bool, c: Check)
    requires ValidChecks(checks, velero) && c in checks && IsDataName(FirstKind(c))
    ensures FirstKind(c).value in (if velero then {PodsReady, ResourceCount} else {RowCount, Checksum, Smoke, Canary})
  {
    assert Suits(c, velero);
    var k := FirstKind(c).value;
    assert c.Has(k);
  }
}
