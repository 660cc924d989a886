/** Running a drill's checks against the restored data, for any engine and any cluster. */
module Verify {
  import opened Wrappers
  import opened Checks
  import Pods = PodsReady

  /** The engine that queries restored data. None stands for a failed query. */
  datatype Engine = Engine(count: string -> Option<int>, checksum: (string, string) -> Option<string>,
                           rows: string -> Option<int>, scalar: string -> Option<string>)

  datatype Kube = Kube(pods: Pods.Cluster, count: ResourceKind -> Option<int>)

  /** All that a check meets when it runs; answers may change from one check to the next. */
  datatype World = World(engine: Option<Engine>, kube: Option<Kube>)

  datatype Comparison = AtLeast | AtMost | Equals | MoreThan | LessThan

  /** What the drill's checks know of the drill; `rowTest` and `identifier` stand for the two regular expressions. */
  datatype Context = Context(restoreFailed: bool, backupAge: Nanos, rowTest: string -> Option<(Comparison, int)>,
                             identifier: string -> bool)

  /** `name` is None for a check that says nothing ("unknown"). */
  datatype Result = Result(name: Option<Kind>, passed: bool, skipped: bool)

  predicate Holds(n: int, test: (Comparison, int)) {
    match test.0
    case AtLeast => n >= test.1
    case AtMost => n <= test.1
    case Equals => n == test.1
    case MoreThan => n > test.1
    case LessThan => n < test.1
  }

  predicate IsData(k: Kind) {
    k != RestoreSucceeded && k != Freshness
  }

  // ---- What each kind of check demands of the world

  predicate Answers<T>(answer: Option<T>, accept: T -> bool) {
    answer.Some? && accept(answer.value)
  }

  function DefaultRows(expected: string): string {
    if |expected| == 0 then ">=1" else expected
  }

  predicate EngineProves(c: Check, k: Kind, e: Engine, dc: Context)
    requires c.Has(k)
  {
    match k
    case RowCount => Answers(e.count(c.rowCount.value.query), n => n >= c.rowCount.value.min)
    case Checksum =>
      var x := c.checksum.value;
      dc.identifier(x.table) && dc.identifier(x.column) &&
      Answers(e.checksum(x.table, x.column), sum => |x.expected| == 0 || sum == x.expected)
    case Smoke =>
      var test := dc.rowTest(DefaultRows(c.smoke.value.expectRows));
      test.Some? && Answers(e.rows(c.smoke.value.Statement()), n => Holds(n, test.value))
    case Canary => Answers(e.scalar(c.canary.value.Statement()), got => got == c.canary.value.expected)
    case _ => false
  }

  ghost predicate KubeProves(c: Check, k: Kind, w: Kube)
    requires c.Has(k)
  {
    match k
    case PodsReady => Pods.StaysReady(w.pods, w.pods.clock(0) + c.podsTimeout.value)
    case ResourceCount => c.resourceCount.value.kind != OtherKind &&
                          Answers(w.count(c.resourceCount.value.kind), n => n >= c.resourceCount.value.min)
    case _ => false
  }

  /** A check of this kind is borne out by what the world answers. */
  ghost predicate Proves(c: Check, k: Kind, w: World, dc: Context)
    requires c.Has(k)
  {
    match k
    case RestoreSucceeded => !dc.restoreFailed
    case Freshness => dc.backupAge <= c.maxAge.value
    case PodsReady => !dc.restoreFailed && w.kube.Some? && KubeProves(c, k, w.kube.value)
    case ResourceCount => !dc.restoreFailed && w.kube.Some? && KubeProves(c, k, w.kube.value)
    case _ => !dc.restoreFailed && w.engine.Some? && EngineProves(c, k, w.engine.value, dc)
  }

  /** The result a check must get: named after the field it is run by, skipped only for want of restored data, and
      passed exactly when the world bears it out. */
  ghost predicate Fair(r: Result, c: Check, w: World, dc: Context) {
    && r.name == FirstKind(c)
    && (r.skipped <==> dc.restoreFailed && r.name.Some? && IsData(r.name.value))
    && (r.passed <==> r.name.Some? && Proves(c, r.name.value, w, dc))
  }

  ghost predicate Sane(w: World) {
    w.kube.Some? ==> w.kube.value.pods.Sleeps()
  }

  method RunOne(c: Check, w: World, dc: Context) returns (r: Result)
    requires Sane(w)
    ensures Fair(r, c, w, dc)
  {
    if c.restoreSucceeded {
      return Result(Some(RestoreSucceeded), !dc.restoreFailed, false);
    } else if c.maxAge.Some? {
      return Result(Some(Freshness), dc.backupAge <= c.maxAge.value, false);
    } else if FirstKind(c).None? {
      return Result(None, false, false);
    }
    var kind := FirstKind(c).value;
    if dc.restoreFailed {
      return Result(Some(kind), false, true);
    }
    if c.IsSql() {
      r := RunSql(c, kind, w, dc);
    } else {
      r := RunKube(c, kind, w, dc);
    }
  }

  method RunSql(c: Check, k: Kind, w: World, dc: Context) returns (r: Result)
    requires FirstKind(c) == Some(k) && c.IsSql() && IsData(k) && !dc.restoreFailed
    ensures Fair(r, c, w, dc)
  {
    if w.engine.None? {
      return Result(Some(k), false, false);
    }
    var e := w.engine.value;
    if c.rowCount.Some? {
      var n := e.count(c.rowCount.value.query);
      return Result(Some(RowCount), n.Some? && n.value >= c.rowCount.value.min, false);
    } else if c.checksum.Some? {
      var x := c.checksum.value;
      if !dc.identifier(x.table) || !dc.identifier(x.column) {
        return Result(Some(Checksum), false, false);
      }
      var sum := e.checksum(x.table, x.column);
      if sum.None? || (|x.expected| > 0 && sum.value != x.expected) {
        return Result(Some(Checksum), false, false);
      }
      return Result(Some(Checksum), true, false);
    } else if c.smoke.Some? {
      var n := e.rows(c.smoke.value.Statement());
      var expected := if |c.smoke.value.expectRows| == 0 then ">=1" else c.smoke.value.expectRows;
      var test := dc.rowTest(expected);
      return Result(Some(Smoke), n.Some? && test.Some? && Holds(n.value, test.value), false);
    } else {
      var got := e.scalar(c.canary.value.Statement());
      return Result(Some(Canary), got.Some? && got.value == c.canary.value.expected, false);
    }
  }

  method RunKube(c: Check, k: Kind, w: World, dc: Context) returns (r: Result)
    requires FirstKind(c) == Some(k) && !c.IsSql() && IsData(k) && !dc.restoreFailed && Sane(w)
    ensures Fair(r, c, w, dc)
  {
    if w.kube.None? {
      return Result(Some(k), false, false);
    }
    if c.podsTimeout.Some? {
      var passed, _ := Pods.WaitReady(w.kube.value.pods, c.podsTimeout.value);
      return Result(Some(PodsReady), passed, false);
    }
    if c.resourceCount.value.kind == OtherKind {
      return Result(Some(ResourceCount), false, false);
    }
    var n := w.kube.value.count(c.resourceCount.value.kind);
    return Result(Some(ResourceCount), n.Some? && n.value >= c.resourceCount.value.min, false);
  }

  /** One fair result for every check, in order. */
  ghost predicate FairAll(results: seq<Result>, checks: seq<Check>, worlds: nat -> World, dc: Context) {
    |results| == |checks| && forall i :: 0 <= i < |checks| ==> Fair(results[i], checks[i], worlds(i), dc)
  }

  method RunChecks(checks: seq<Check>, worlds: nat -> World, dc: Context) returns (results: seq<Result>)
    requires forall i: nat :: Sane(worlds(i))
    ensures FairAll(results, checks, worlds, dc)
  {
    results := [];
    for i := 0 to |checks|
      invariant FairAll(results, checks[..i], worlds, dc)
    {
      var r := RunOne(checks[i], worlds(i), dc);
      results := results + [r];
    }
  }

  /** What a smoke check that came to run asks: the one statement it was given returns as many rows as expected, which
      without an expectation means at least one. */
  lemma SmokeAsks(r: Result, c: Check, w: World, dc: Context, rows: int, op: Comparison, bound: int)
    requires Fair(r, c, w, dc) && FirstKind(c) == Some(Smoke) && c.Complete(Smoke) && !dc.restoreFailed
    requires var x := c.smoke.value;
      && w.engine.Some? && w.engine.value.rows(if x.sql != "" then x.sql else x.query) == Some(rows)
      && dc.rowTest(if x.expectRows != "" then x.expectRows else ">=1") == Some((op, bound))
    ensures r.passed <==> match op
      case AtLeast => bound <= rows
      case AtMost => bound >= rows
      case Equals => bound == rows
      case MoreThan => bound < rows
      case LessThan => bound > rows
  {
  }

  /** What a canary asks: the one statement it was given returns just the value expected. */
  lemma CanaryAsks(r: Result, c: Check, w: World, dc: Context)
    requires Fair(r, c, w, dc) && FirstKind(c) == Some(Canary) && c.Complete(Canary) && !dc.restoreFailed
    ensures var x := c.canary.value;
      r.passed <==> w.engine.Some? && w.engine.value.scalar(if x.sql != "" then x.sql else x.query) == Some(x.expected)
  {
  }
}
