/** Waiting for restored pods to become ready and stay ready. */
module PodsReady {
  import opened Clock
  import opened Wrappers

  type Nanos = int

  const STABLE_POLLS := 3

  datatype Phase = Pending | Running | Succeeded | Failed | UnknownPhase
  datatype Condition = Condition(ready: bool, status: bool)

  /** `ready` marks a condition of type Ready, `status` that its status is True. */
  datatype Pod = Pod(phase: Phase, conditions: seq<Condition>)

  /** What the cluster and the clock answer at each poll. Between two polls the caller sleeps two seconds, and the
      monotonic clock advances by at least that much. */
  datatype Cluster = Cluster(clock: nat -> Nanos, cancelled: nat -> bool, list: nat -> Option<seq<Pod>>) {
    ghost predicate Sleeps() {
      forall i: nat :: clock(i + 1) >= clock(i) + 2 * SECOND
    }
  }

  /** A pod is ready by its first Ready condition. */
  ghost predicate IsReady(p: Pod) {
    p.phase == Running &&
    exists k :: 0 <= k < |p.conditions| && p.conditions[k].ready && p.conditions[k].status
      && forall j :: 0 <= j < k ==> !p.conditions[j].ready
  }

  method PodIsReady(p: Pod) returns (ready: bool)
    ensures ready <==> IsReady(p)
  {
    if p.phase != Running {
      return false;
    }
    for i := 0 to |p.conditions|
      invariant forall j :: 0 <= j < i ==> !p.conditions[j].ready
    {
      if p.conditions[i].ready {
        return p.conditions[i].status;
      }
    }
    return false;
  }

  /** A sample that counts: an answer with pods in it, each completed or ready. */
  ghost predicate Good(answer: Option<seq<Pod>>) {
    answer.Some? && answer.value != [] && forall p <- answer.value :: p.phase == Succeeded || IsReady(p)
  }

  method CountNotReady(pods: seq<Pod>) returns (notReady: nat)
    ensures notReady <= |pods|
    ensures notReady == 0 <==> forall p <- pods :: p.phase == Succeeded || IsReady(p)
  {
    notReady := 0;
    for i := 0 to |pods|
      invariant notReady <= i
      invariant notReady == 0 <==> forall p <- pods[..i] :: p.phase == Succeeded || IsReady(p)
    {
      assert pods[..i + 1] == pods[..i] + [pods[i]];
      if pods[i].phase == Succeeded {
        continue;
      }
      var ready := PodIsReady(pods[i]);
      if !ready {
        notReady := notReady + 1;
        assert pods[i] in pods[..i + 1];
      }
    }
    assert pods[..|pods|] == pods;
  }

  /** A failed listing, an empty one and one with an unready pod are all bad. */
  method Sample(answer: Option<seq<Pod>>) returns (good: bool)
    ensures good <==> Good(answer)
  {
    if answer.None? {
      return false;
    } else if answer.value == [] {
      return false;
    }
    var notReady := CountNotReady(answer.value);
    return notReady == 0;
  }

  /** Polls 0..n-1 all take place: each starts before the deadline, in a live context. */
  ghost predicate Polled(c: Cluster, deadline: Nanos, n: nat) {
    forall i: nat :: i < n ==> c.clock(i) < deadline && !c.cancelled(i)
  }

  /** Poll i completes three good samples in a row. */
  ghost predicate Stable(c: Cluster, i: nat) {
    i >= 2 && forall j: nat :: i - 2 <= j <= i ==> Good(c.list(j))
  }

  ghost predicate StaysReady(c: Cluster, deadline: Nanos) {
    exists i: nat :: Polled(c, deadline, i + 1) && Stable(c, i)
  }

  /** How many samples up to the last of `n` polls were good without a break. */
  ghost function Streak(c: Cluster, n: nat): nat {
    if n == 0 || !Good(c.list(n - 1)) then 0 else 1 + Streak(c, n - 1)
  }

  lemma {:induction false} StreakMeans(c: Cluster, n: nat, k: nat)
    requires k <= n
    ensures Streak(c, n) <= n
    ensures Streak(c, n) >= k <==> forall j: nat :: n - k <= j < n ==> Good(c.list(j))
  {
    if n != 0 {
      StreakMeans(c, n - 1, if k == 0 then 0 else k - 1);
    }
  }

  lemma StableByStreak(c: Cluster, i: nat)
    ensures Stable(c, i) <==> Streak(c, i + 1) >= STABLE_POLLS
  {
    if i + 1 >= STABLE_POLLS {
      StreakMeans(c, i + 1, STABLE_POLLS);
    } else {
      StreakMeans(c, i + 1, 0);
    }
  }

  /** Passes exactly when some poll before the deadline, in a live context, completes three good samples in a row;
      it then returns at the first such poll. `polls` counts the listings made. */
  method WaitReady(c: Cluster, timeout: Nanos) returns (passed: bool, polls: nat)
    requires c.Sleeps()
    ensures passed <==> StaysReady(c, c.clock(0) + timeout)
    ensures passed ==> polls > 0 && Polled(c, c.clock(0) + timeout, polls) && Stable(c, polls - 1)
    ensures passed ==> forall i: nat :: i < polls - 1 ==> !Stable(c, i)
    ensures !passed ==> c.clock(polls) >= c.clock(0) + timeout || c.cancelled(polls)
    ensures polls > 0 ==> 2 * SECOND * (polls - 1) < timeout
  {
    var deadline := c.clock(0) + timeout;
    var stable := 0;
    polls := 0;
    while c.clock(polls) < deadline
      invariant Polled(c, deadline, polls)
      invariant stable == Streak(c, polls) < STABLE_POLLS
      invariant forall i: nat :: i < polls ==> !Stable(c, i)
      invariant c.clock(polls) >= c.clock(0) + 2 * SECOND * polls
      invariant polls > 0 ==> c.clock(polls - 1) < deadline
      invariant polls > 0 ==> c.clock(polls - 1) >= c.clock(0) + 2 * SECOND * (polls - 1)
      decreases deadline - c.clock(polls)
    {
      if c.cancelled(polls) {
        NotLater(c, deadline, polls);
        return false, polls;
      }
      var good := Sample(c.list(polls));
      stable := if good then stable + 1 else 0;
      StableByStreak(c, polls);
      polls := polls + 1;
      if stable >= STABLE_POLLS {
        return true, polls;
      }
    }
    NotLater(c, deadline, polls);
    return false, polls;
  }

  /** Once the loop has stopped, no later poll can pass. */
  lemma NotLater(c: Cluster, deadline: Nanos, n: nat)
    requires c.clock(n) >= deadline || c.cancelled(n)
    requires forall i: nat :: i < n ==> !Stable(c, i)
    ensures !StaysReady(c, deadline)
  {
  }

  /** One unready sample resets the count: no stable stretch spans it. */
  lemma BadSampleResets(c: Cluster, bad: nat, i: nat)
    requires !Good(c.list(bad)) && bad <= i < bad + 3
    ensures !Stable(c, i)
  {
  }

  /** A pod that flashes ready for two polls out of every three never passes. */
  lemma CrashLoopNeverPasses(c: Cluster, deadline: Nanos)
    requires forall i: nat :: i % 3 == 2 ==> !Good(c.list(i))
    ensures !StaysReady(c, deadline)
  {
    forall i: nat ensures !Stable(c, i) {
      if i >= 2 {
        var bad := i - (i + 1) % 3;
        assert bad % 3 == 2;
        BadSampleResets(c, bad, i);
      }
    }
  }
}
