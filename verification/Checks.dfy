/** A drill's verification checks: what a drill file may say, and what validation makes sure of. */
module Checks {
  import opened Wrappers

  type Nanos = int

  datatype Kind = RestoreSucceeded | Freshness | RowCount | Checksum | Smoke | Canary | PodsReady | ResourceCount

  datatype RowCountCheck = RowCountCheck(query: string, min: int)
  datatype ChecksumCheck = ChecksumCheck(table: string, column: string, expected: string)
  datatype SmokeCheck = SmokeCheck(sql: string, query: string, expectRows: string) {
    function Statement(): string { if |query| > 0 then query else sql }
  }
  datatype CanaryCheck = CanaryCheck(sql: string, query: string, expected: string) {
    function Statement(): string { if |query| > 0 then query else sql }
  }
  datatype ResourceKind = Deployments | StatefulSets | Services | ConfigMaps | Secrets | Pods | OtherKind
  datatype ResourceCountCheck = ResourceCountCheck(kind: ResourceKind, min: int)

  /** As decoded from YAML, any number of the fields may be set. */
  datatype Check = Check(restoreSucceeded: bool, maxAge: Option<Nanos>, rowCount: Option<RowCountCheck>,
                         checksum: Option<ChecksumCheck>, smoke: Option<SmokeCheck>, canary: Option<CanaryCheck>,
                         podsTimeout: Option<Nanos>, resourceCount: Option<ResourceCountCheck>)
  {
    predicate Has(k: Kind) {
      match k
      case RestoreSucceeded => restoreSucceeded
      case Freshness => maxAge.Some?
      case RowCount => rowCount.Some?
      case Checksum => checksum.Some?
      case Smoke => smoke.Some?
      case Canary => canary.Some?
      case PodsReady => podsTimeout.Some?
      case ResourceCount => resourceCount.Some?
    }

    predicate IsSql() {
      rowCount.Some? || checksum.Some? || smoke.Some? || canary.Some?
    }

    predicate IsK8s() {
      podsTimeout.Some? || resourceCount.Some?
    }

    predicate ProvesData() {
      IsSql() || IsK8s()
    }

    /** What is asked of a field that is set. */
    predicate Complete(k: Kind)
      requires Has(k)
    {
      match k
      case RestoreSucceeded => true
      case Freshness => maxAge.value > 0
      case RowCount => |rowCount.value.query| > 0
      case Checksum => |checksum.value.table| > 0 && |checksum.value.column| > 0
      case Smoke => (|smoke.value.sql| > 0) != (|smoke.value.query| > 0)
      case Canary => (|canary.value.sql| > 0) != (|canary.value.query| > 0) && |canary.value.expected| > 0
      case PodsReady => podsTimeout.value > 0
      case ResourceCount => resourceCount.value.kind != OtherKind
    }

    /** Exactly one field is set, and it is complete. */
    ghost predicate Valid() {
      exists k: Kind :: Has(k) && Complete(k) && forall j: Kind :: Has(j) ==> j == k
    }
  }

  datatype Problem = Incomplete(kind: Kind) | NotExactlyOne(count: nat)

  function One(b: bool): nat {
    if b then 1 else 0
  }

  function FieldsSet(c: Check): nat {
    ProcessFields(c) + SqlFields(c) + K8sFields(c)
  }

  function ProcessFields(c: Check): nat {
    One(c.restoreSucceeded) + One(c.maxAge.Some?)
  }

  function SqlFields(c: Check): nat {
    One(c.rowCount.Some?) + One(c.checksum.Some?) + One(c.smoke.Some?) + One(c.canary.Some?)
  }

  function K8sFields(c: Check): nat {
    One(c.podsTimeout.Some?) + One(c.resourceCount.Some?)
  }

  predicate Lacks(c: Check, k: Kind) {
    c.Has(k) && !c.Complete(k)
  }

  /** The first set field that is incomplete, in the order of the fields. */
  function FirstLack(c: Check): Option<Kind> {
    if Lacks(c, Freshness) then Some(Freshness)
    else if SqlLack(c).Some? then SqlLack(c)
    else if Lacks(c, PodsReady) then Some(PodsReady)
    else if Lacks(c, ResourceCount) then Some(ResourceCount)
    else None
  }

  function SqlLack(c: Check): Option<Kind> {
    if Lacks(c, RowCount) then Some(RowCount)
    else if Lacks(c, Checksum) then Some(Checksum)
    else if Lacks(c, Smoke) then Some(Smoke)
    else if Lacks(c, Canary) then Some(Canary)
    else None
  }

  function ProblemOf(c: Check): Option<Problem> {
    if FirstLack(c).Some? then Some(Incomplete(FirstLack(c).value))
    else if FieldsSet(c) != 1 then Some(NotExactlyOne(FieldsSet(c)))
    else None
  }

  method ValidateCheck(c: Check) returns (err: Option<Problem>)
    ensures err == ProblemOf(c)
  {
    var n := 0;
    if c.restoreSucceeded {
      n := n + 1;
    }
    if c.maxAge.Some? {
      n := n + 1;
      if c.maxAge.value <= 0 {
        return Some(Incomplete(Freshness));
      }
    }
    var sql, lack := ValidateSql(c);
    if lack.Some? {
      return Some(Incomplete(lack.value));
    }
    n := n + sql;
    if c.podsTimeout.Some? {
      n := n + 1;
      if c.podsTimeout.value <= 0 {
        return Some(Incomplete(PodsReady));
      }
    }
    if c.resourceCount.Some? {
      n := n + 1;
      if c.resourceCount.value.kind == OtherKind {
        return Some(Incomplete(ResourceCount));
      }
    }
    if n != 1 {
      return Some(NotExactlyOne(n));
    }
    return None;
  }

  /** The part of validation that looks at the SQL fields. */
  method ValidateSql(c: Check) returns (n: nat, lack: Option<Kind>)
    ensures lack == SqlLack(c)
    ensures lack.None? ==> n == SqlFields(c)
  {
    n := 0;
    if c.rowCount.Some? {
      n := n + 1;
      if |c.rowCount.value.query| == 0 {
        return n, Some(RowCount);
      }
    }
    if c.checksum.Some? {
      n := n + 1;
      if |c.checksum.value.table| == 0 || |c.checksum.value.column| == 0 {
        return n, Some(Checksum);
      }
    }
    if c.smoke.Some? {
      n := n + 1;
      if |c.smoke.value.sql| > 0 && |c.smoke.value.query| > 0 {
        return n, Some(Smoke);
      }
      if |c.smoke.value.Statement()| == 0 {
        return n, Some(Smoke);
      }
    }
    if c.canary.Some? {
      n := n + 1;
      if |c.canary.value.sql| > 0 && |c.canary.value.query| > 0 {
        return n, Some(Canary);
      }
      if |c.canary.value.Statement()| == 0 || |c.canary.value.expected| == 0 {
        return n, Some(Canary);
      }
    }
    return n, None;
  }

  lemma LacksAreFound(c: Check, k: Kind)
    ensures Lacks(c, k) ==> FirstLack(c).Some?
    ensures FirstLack(c).Some? ==> Lacks(c, FirstLack(c).value)
  {
    match k {
      case RestoreSucceeded =>
      case Freshness =>
      case RowCount =>
      case Checksum =>
      case Smoke =>
      case Canary =>
      case PodsReady =>
      case ResourceCount =>
    }
  }

  /** One field is set when the field the check is run by is the only one. */
  lemma OneFieldMeans(c: Check)
    ensures FieldsSet(c) == 1 <==> FirstKind(c).Some? && forall j: Kind :: c.Has(j) ==> j == FirstKind(c).value
  {
    if FirstKind(c).Some? {
      forall j: Kind | c.Has(j) && j != FirstKind(c).value ensures FieldsSet(c) > 1 {
        match j {
          case RestoreSucceeded =>
          case Freshness =>
          case RowCount =>
          case Checksum =>
          case Smoke =>
          case Canary =>
          case PodsReady =>
          case ResourceCount =>
        }
      }
      if forall j: Kind :: c.Has(j) ==> j == FirstKind(c).value {
        OnlyField(c);
      }
    }
  }

  lemma OnlyField(c: Check)
    requires FirstKind(c).Some? && forall j: Kind :: c.Has(j) ==> j == FirstKind(c).value
    ensures FieldsSet(c) == 1
  {
    var k := FirstKind(c).value;
    assert c.Has(RestoreSucceeded) ==> k == RestoreSucceeded;
    assert c.Has(Freshness) ==> k == Freshness;
    assert c.Has(RowCount) ==> k == RowCount;
    assert c.Has(Checksum) ==> k == Checksum;
    assert c.Has(Smoke) ==> k == Smoke;
    assert c.Has(Canary) ==> k == Canary;
    assert c.Has(PodsReady) ==> k == PodsReady;
    assert c.Has(ResourceCount) ==> k == ResourceCount;
  }

  /** A check passes exactly when one field is set and it is complete. */
  lemma ProblemMeans(c: Check)
    ensures ProblemOf(c).None? <==> c.Valid()
  {
    OneFieldMeans(c);
    forall k: Kind {
      LacksAreFound(c, k);
    }
    if c.Valid() {
      var k: Kind :| c.Has(k) && c.Complete(k) && forall j: Kind :: c.Has(j) ==> j == k;
      LacksAreFound(c, k);
    } else if FirstKind(c).Some? {
      LacksAreFound(c, FirstKind(c).value);
    }
  }

  /** The field a check is run by: the first that is set, in the order of the dispatch. */
  function FirstKind(c: Check): (k: Option<Kind>)
    ensures k.Some? ==> c.Has(k.value)
    ensures k.None? ==> forall j :: !c.Has(j)
  {
    if c.restoreSucceeded then Some(RestoreSucceeded)
    else if c.maxAge.Some? then Some(Freshness)
    else if c.rowCount.Some? then Some(RowCount)
    else if c.checksum.Some? then Some(Checksum)
    else if c.smoke.Some? then Some(Smoke)
    else if c.canary.Some? then Some(Canary)
    else if c.podsTimeout.Some? then Some(PodsReady)
    else if c.resourceCount.Some? then Some(ResourceCount)
    else None
  }

  datatype Fault =
    | NoChecks | NoDataCheck | BadCheck(index: nat, problem: Problem)
    | SqlOnVelero(index: nat) | K8sOffVelero(index: nat)

  /** What validation is for: there is a check that looks at restored data, every check is one check, and the
      checks suit the driver. */
  ghost predicate ValidChecks(checks: seq<Check>, velero: bool) {
    && (exists c <- checks :: c.ProvesData())
    && (forall c <- checks :: Suits(c, velero))
  }

  method ValidateChecks(checks: seq<Check>, velero: bool) returns (faults: seq<Fault>)
    ensures faults == [] <==> ValidChecks(checks, velero)
    ensures NoChecks in faults <==> checks == []
    ensures NoDataCheck in faults <==> checks != [] && forall c <- checks :: !c.ProvesData()
  {
    faults := [];
    if |checks| == 0 {
      faults := faults + [NoChecks];
    }
    var hasDataCheck := false;
    for i := 0 to |checks|
      invariant !hasDataCheck && forall c <- checks[..i] :: !c.ProvesData()
    {
      if checks[i].ProvesData() {
        hasDataCheck := true;
        break;
      }
    }
    assert checks[..|checks|] == checks;
    assert hasDataCheck <==> exists c <- checks :: c.ProvesData();
    if |checks| > 0 && !hasDataCheck {
      faults := faults + [NoDataCheck];
    }
    ghost var general := faults;
    for i := 0 to |checks|
      invariant general <= faults
      invariant forall f <- faults[|general|..] :: !f.NoChecks? && !f.NoDataCheck?
      invariant faults == general <==> forall c <- checks[..i] :: Suits(c, velero)
    {
      var more := Faults(checks[i], i, velero);
      assert checks[..i + 1] == checks[..i] + [checks[i]];
      assert (faults + more)[|general|..] == faults[|general|..] + more;
      faults := faults + more;
    }
    assert faults == general + faults[|general|..];
  }

  ghost predicate Suits(c: Check, velero: bool) {
    c.Valid() && (if velero then !c.IsSql() else !c.IsK8s())
  }

  method Faults(c: Check, i: nat, velero: bool) returns (faults: seq<Fault>)
    ensures faults == [] <==> Suits(c, velero)
    ensures forall f <- faults :: !f.NoChecks? && !f.NoDataCheck?
  {
    faults := [];
    ProblemMeans(c);
    var err := ValidateCheck(c);
    if err.Some? {
      faults := faults + [BadCheck(i, err.value)];
    }
    if velero && c.IsSql() {
      faults := faults + [SqlOnVelero(i)];
    }
    if !velero && c.IsK8s() {
      faults := faults + [K8sOffVelero(i)];
    }
  }
}
