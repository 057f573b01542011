/** The bounded worker: a number of drains in a row, with capped exponential backoff while there is
    nothing to do. */
module Worker {
  import opened Base
  import opened Outbox

  datatype WorkerConfig = WorkerConfig(sleep: real, limit: nat, multiplier: real, maxSleep: real)

  function MinReal(a: real, b: real): real {
    if a <= b then a else b
  }

  function MaxReal(a: real, b: real): real {
    if a <= b then b else a
  }

  // ---------- the cycles ----------

  /** An entry of the report; the sleep is the one in force when the cycle starts. */
  datatype CycleResult = CycleResult(cycle: nat, result: DrainResult, sleep: real)

  function BackedOff(w: WorkerConfig, current: real): real {
    MinReal(w.maxSleep, if current > 0.0 then current * w.multiplier else 0.0)
  }

  /** One update of the sleep time. */
  function NextSleep(w: WorkerConfig, current: real, idle: bool): real {
    if idle then BackedOff(w, current) else w.sleep
  }

  /** The sleep time in force after some cycles. */
  function SleepAfter(w: WorkerConfig, rs: seq<CycleResult>): real {
    if rs == [] then w.sleep else NextSleep(w, SleepAfter(w, rs[..|rs| - 1]), rs[|rs| - 1].result.idle)
  }

  // ---------- backoff ----------

  function Pow(m: real, k: nat): real {
    if k == 0 then 1.0 else m * Pow(m, k - 1)
  }

  lemma ScaleUp(x: real, m: real)
    requires x >= 0.0 && m >= 1.0
    ensures x * m >= x
  {
    assert x * m - x == x * (m - 1.0);
  }

  /** x multiplied by m, k times. */
  function Scaled(x: real, m: real, k: nat): real {
    if k == 0 then x else Scaled(x, m, k - 1) * m
  }

  lemma Reassociate(x: real, m: real, p: real)
    ensures x * (m * p) == (x * p) * m
  {
  }

  lemma {:induction false} ScaledIsPower(x: real, m: real, k: nat)
    ensures Scaled(x, m, k) == x * Pow(m, k)
  {
    if k == 0 {
    } else {
      ScaledIsPower(x, m, k - 1);
      Reassociate(x, m, Pow(m, k - 1));
    }
  }

  lemma {:induction false} ScaledPositive(x: real, m: real, k: nat)
    requires x >= 0.0 && m >= 1.0
    ensures Scaled(x, m, k) >= 0.0
  {
    if k == 0 {
    } else {
      ScaledPositive(x, m, k - 1);
      ScaleUp(Scaled(x, m, k - 1), m);
    }
  }

  /** The sleep after k idle cycles in a row: the base times multiplier^k, capped. A negative base counts
      as none. */
  function Backoff(w: WorkerConfig, k: nat): real {
    MinReal(w.maxSleep, Scaled(MaxReal(w.sleep, 0.0), w.multiplier, k))
  }

  /** Capping before multiplying is the same as capping afterwards. */
  lemma CapThenMultiply(cap: real, x: real, m: real)
    requires x >= 0.0 && m >= 1.0
    ensures var c := MinReal(cap, x); MinReal(cap, if c > 0.0 then c * m else 0.0) == MinReal(cap, x * m)
  {
    ScaleUp(x, m);
    if cap > 0.0 {
      ScaleUp(cap, m);
    }
  }

  lemma BackoffStep(w: WorkerConfig, k: nat)
    requires w.multiplier >= 1.0
    ensures BackedOff(w, Backoff(w, k)) == Backoff(w, k + 1)
  {
    var b := MaxReal(w.sleep, 0.0);
    ScaledPositive(b, w.multiplier, k);
    CapThenMultiply(w.maxSleep, Scaled(b, w.multiplier, k), w.multiplier);
  }

  /** Closed form of the backoff: after k idle cycles since the start or the last busy cycle the sleep is
      min(maxSleep, base * multiplier^k), and after a busy cycle it is the base again. */
  lemma {:induction false} BackoffClosedForm(w: WorkerConfig, rs: seq<CycleResult>, start: nat)
    requires w.multiplier >= 1.0 && start <= |rs|
    requires start == 0 || !rs[start - 1].result.idle
    requires forall j | start <= j < |rs| :: rs[j].result.idle
    ensures SleepAfter(w, rs) == if |rs| == start then w.sleep else Backoff(w, |rs| - start)
    decreases |rs|
  {
    if |rs| == start + 1 {
      BackoffClosedForm(w, rs[..start], start);
      assert Scaled(MaxReal(w.sleep, 0.0), w.multiplier, 1) == MaxReal(w.sleep, 0.0) * w.multiplier;
    } else if |rs| > start + 1 {
      BackoffClosedForm(w, rs[..|rs| - 1], start);
      BackoffStep(w, |rs| - 1 - start);
    }
  }

  // ---------- totals ----------

  datatype Report = Report(cycles: int, processed: nat, delivered: nat, failed: int, idleCycles: nat,
                           results: seq<CycleResult>)

  function SumProcessed(rs: seq<CycleResult>): nat {
    if rs == [] then 0 else SumProcessed(rs[..|rs| - 1]) + rs[|rs| - 1].result.processed
  }

  function SumDelivered(rs: seq<CycleResult>): nat {
    if rs == [] then 0 else SumDelivered(rs[..|rs| - 1]) + rs[|rs| - 1].result.delivered
  }

  function SumFailed(rs: seq<CycleResult>): int {
    if rs == [] then 0 else SumFailed(rs[..|rs| - 1]) + rs[|rs| - 1].result.failed
  }

  function CountIdle(rs: seq<CycleResult>): nat {
    if rs == [] then 0 else CountIdle(rs[..|rs| - 1]) + if rs[|rs| - 1].result.idle then 1 else 0
  }

  function Total(xs: seq<real>): real {
    if xs == [] then 0.0 else Total(xs[..|xs| - 1]) + xs[|xs| - 1]
  }

  /** Cycle k, at time clock(k), is one drain. */
  ghost predicate CycleStep(cfg: HookConfig, net: Net, w: WorkerConfig, now: int, s: State, r: DrainResult, t: State) {
    (t, r) == Drain(cfg, net, s, w.limit, now)
  }

  /** The states between the cycles, and entries that say what the cycles did. */
  ghost predicate Traced(cfg: HookConfig, net: Net, w: WorkerConfig, clock: nat -> int, states: seq<State>,
                         rs: seq<CycleResult>) {
    && |states| == |rs| + 1
    && forall k | 0 <= k < |rs| :: CycleStep(cfg, net, w, clock(k), states[k], rs[k].result, states[k + 1])
  }

  /** The report of n cycles: numbered entries with the sleep in force, and totals that are the sums over
      the entries. */
  ghost predicate Summed(w: WorkerConfig, n: nat, r: Report) {
    && |r.results| == n
    && (forall k | 0 <= k < n :: r.results[k].cycle == k + 1 && r.results[k].sleep == SleepAfter(w, r.results[..k]))
    && r.processed == SumProcessed(r.results)
    && r.delivered == SumDelivered(r.results)
    && r.failed == SumFailed(r.results)
    && r.idleCycles == CountIdle(r.results)
  }

  /** A report with one more cycle. */
  function AddCycle(r: Report, result: DrainResult, sleep: real): Report {
    Report(r.cycles, r.processed + result.processed, r.delivered + result.delivered, r.failed + result.failed,
           r.idleCycles + (if result.idle then 1 else 0), r.results + [CycleResult(|r.results| + 1, result, sleep)])
  }

  lemma SumsGrow(rs: seq<CycleResult>, c: CycleResult)
    ensures SumProcessed(rs + [c]) == SumProcessed(rs) + c.result.processed
    ensures SumDelivered(rs + [c]) == SumDelivered(rs) + c.result.delivered
    ensures SumFailed(rs + [c]) == SumFailed(rs) + c.result.failed
    ensures CountIdle(rs + [c]) == CountIdle(rs) + if c.result.idle then 1 else 0
  {
    assert (rs + [c])[..|rs|] == rs;
  }

  lemma TraceGrows(cfg: HookConfig, net: Net, w: WorkerConfig, clock: nat -> int, states: seq<State>,
                   rs: seq<CycleResult>,
                   t: State, c: CycleResult)
    requires Traced(cfg, net, w, clock, states, rs)
    requires CycleStep(cfg, net, w, clock(|rs|), states[|rs|], c.result, t)
    ensures Traced(cfg, net, w, clock, states + [t], rs + [c])
  {
    var (ss, qs) := (states + [t], rs + [c]);
    forall k | 0 <= k < |qs| ensures CycleStep(cfg, net, w, clock(k), ss[k], qs[k].result, ss[k + 1]) {
      if k < |rs| {
        assert CycleStep(cfg, net, w, clock(k), states[k], rs[k].result, states[k + 1]);
      }
    }
  }

  lemma SummedGrows(w: WorkerConfig, n: nat, r: Report, result: DrainResult)
    requires Summed(w, n, r)
    ensures Summed(w, n + 1, AddCycle(r, result, SleepAfter(w, r.results)))
  {
    var r' := AddCycle(r, result, SleepAfter(w, r.results));
    SumsGrow(r.results, r'.results[n]);
    forall k | 0 <= k < n + 1
      ensures r'.results[k].cycle == k + 1 && r'.results[k].sleep == SleepAfter(w, r'.results[..k])
    {
      if k < n {
        assert r'.results[..k] == r.results[..k];
      } else {
        assert r'.results[..k] == r.results;
      }
    }
  }

  /** The sleeps made after each of some cycles: the positive ones. */
  function Sleeps(w: WorkerConfig, rs: seq<CycleResult>): seq<real> {
    if rs == [] then []
    else Sleeps(w, rs[..|rs| - 1]) + if SleepAfter(w, rs) > 0.0 then [SleepAfter(w, rs)] else []
  }

  /** There is no sleep after the last of n cycles. */
  function SleepsOfRun(w: WorkerConfig, rs: seq<CycleResult>, n: int): seq<real> {
    Sleeps(w, if |rs| < n || rs == [] then rs else rs[..|rs| - 1])
  }

  lemma SleepsGrow(w: WorkerConfig, rs: seq<CycleResult>, c: CycleResult, n: int)
    requires |rs| < n
    ensures var next := NextSleep(w, SleepAfter(w, rs), c.result.idle);
            && SleepAfter(w, rs + [c]) == next
            && SleepsOfRun(w, rs + [c], n) == SleepsOfRun(w, rs, n) + if |rs| < n - 1 && next > 0.0 then [next] else []
  {
    assert (rs + [c])[..|rs|] == rs;
    assert Sleeps(w, rs) + [] == Sleeps(w, rs);
  }

  lemma SleepBounded(w: WorkerConfig, rs: seq<CycleResult>)
    ensures SleepAfter(w, rs) <= MaxReal(w.sleep, w.maxSleep)
  {
  }

  /** x added up n times. */
  function Times(n: nat, x: real): real {
    if n == 0 then 0.0 else Times(n - 1, x) + x
  }

  lemma {:induction false} TimesIsProduct(n: nat, x: real)
    ensures Times(n, x) == n as real * x
  {
    if n == 0 {
    } else {
      TimesIsProduct(n - 1, x);
      var before := (n - 1) as real;
      assert n as real == before + 1.0;
      assert (before + 1.0) * x == before * x + x;
    }
  }

  function SleepCap(w: WorkerConfig): real {
    MaxReal(0.0, MaxReal(w.sleep, w.maxSleep))
  }

  lemma {:induction false} SleepsBounded(w: WorkerConfig, rs: seq<CycleResult>)
    ensures Total(Sleeps(w, rs)) <= Times(|rs|, SleepCap(w))
  {
    if rs == [] {
    } else {
      var (before, next) := (Sleeps(w, rs[..|rs| - 1]), SleepAfter(w, rs));
      SleepsBounded(w, rs[..|rs| - 1]);
      SleepBounded(w, rs);
      if next > 0.0 {
        assert (before + [next])[..|before|] == before;
      } else {
        assert before + [] == before;
      }
    }
  }

  lemma RunSleepsBounded(w: WorkerConfig, rs: seq<CycleResult>, n: nat)
    requires n >= 1 && |rs| == n
    ensures Total(SleepsOfRun(w, rs, n)) <= Times(n - 1, SleepCap(w))
  {
    SleepsBounded(w, rs[..n - 1]);
  }

  lemma AtMostProduct(total: real, n: nat, x: real)
    requires total <= Times(n, x)
    ensures total <= n as real * x
  {
    TimesIsProduct(n, x);
  }

  /** A run of n cycles sleeps at most n - 1 times the larger of base and maximum. */
  lemma TotalSleepBounded(w: WorkerConfig, rs: seq<CycleResult>, n: nat)
    requires n >= 1 && |rs| == n
    ensures Total(SleepsOfRun(w, rs, n)) <= (n - 1) as real * SleepCap(w)
  {
    RunSleepsBounded(w, rs, n);
    AtMostProduct(Total(SleepsOfRun(w, rs, n)), n - 1, SleepCap(w));
  }

  // ---------- convergence ----------

  /** Every POST succeeds. */
  ghost predicate Reliable(net: Net) {
    forall k :: net(k).Accepted?
  }

  /** From s to t the first m rows of the queue e were sent, oldest first, one POST each. */
  ghost predicate SentInOrder(s: State, t: State, e: seq<nat>, m: nat)
    requires m <= |e|
  {
    && |t.posts| == |s.posts| + m && s.posts <= t.posts
    && (forall j | 0 <= j < m :: t.posts[|s.posts| + j].channel == FromOutbox(e[j]))
  }

  lemma SentThen(s: State, t: State, u: State, e: seq<nat>, m: nat, k: nat)
    requires m + k <= |e| && SentInOrder(s, t, e, m) && SentInOrder(t, u, e[m..], k)
    ensures SentInOrder(s, u, e, m + k)
  {
    forall j | 0 <= j < m + k ensures u.posts[|s.posts| + j].channel == FromOutbox(e[j]) {
      if j < m {
        assert u.posts[|s.posts| + j] == t.posts[|s.posts| + j];
      } else {
        assert e[j] == e[m..][j - m];
        assert u.posts[|t.posts| + (j - m)].channel == FromOutbox(e[m..][j - m]);
      }
    }
  }

  lemma DeliverHead(cfg: HookConfig, net: Net, s: State, now: int)
    requires cfg.url && Reliable(net) && Eligible(s.outbox) != [] && Eligible(s.outbox)[0] < |s.outbox|
    ensures var s1 := Deliver(cfg, net, s, Eligible(s.outbox)[0], now);
            && Eligible(s1.outbox) == Eligible(s.outbox)[1..] && |s1.outbox| == |s.outbox|
            && SentInOrder(s, s1, Eligible(s.outbox), 1)
  {
    var i := Eligible(s.outbox)[0];
    HeadLeaves(s.outbox, Deliver(cfg, net, s, i, now).outbox[i]);
  }

  lemma Slices(e: seq<nat>, k: nat)
    requires 1 <= k <= |e|
    ensures e[..k][1..] == e[1..][..k - 1] && e[1..][k - 1..] == e[k..] && e[..k][0] == e[0]
  {
  }

  /** With a working network a drain delivers the first k rows of the queue, in its order. */
  lemma {:induction false} DrainRowsDelivers(cfg: HookConfig, net: Net, s: State, e: seq<nat>, k: nat, now: int)
    requires cfg.url && Reliable(net) && e == Eligible(s.outbox) && k <= |e| && InBounds(e[..k], |s.outbox|)
    ensures var (s', n) := DrainRows(cfg, net, s, e[..k], now);
            n == k && Eligible(s'.outbox) == e[k..] && SentInOrder(s, s', e, k)
    decreases k
  {
    if k == 0 {
    } else {
      Slices(e, k);
      assert e[..k][0] < |s.outbox|;
      var s1 := Deliver(cfg, net, s, e[0], now);
      DeliverHead(cfg, net, s, now);
      EligibleBounds(s1.outbox);
      DrainRowsDelivers(cfg, net, s1, e[1..], k - 1, now);
      SentThen(s, s1, DrainRows(cfg, net, s1, e[1..][..k - 1], now).0, e, 1, k - 1);
    }
  }

  lemma DrainDelivers(cfg: HookConfig, net: Net, s: State, limit: nat, now: int)
    requires cfg.url && Reliable(net)
    ensures var (s', r) := Drain(cfg, net, s, limit, now);
            var m: nat := Min(limit, |Eligible(s.outbox)|);
            && r.processed == r.delivered == m && r.failed == 0 && (r.idle <==> m == 0)
            && Eligible(s'.outbox) == Eligible(s.outbox)[m..] && SentInOrder(s, s', Eligible(s.outbox), m)
  {
    var (e, m) := (Eligible(s.outbox), Min(limit, |Eligible(s.outbox)|));
    EligibleBounds(s.outbox);
    assert Picks(s.outbox, limit) == e[..m];
    DrainRowsDelivers(cfg, net, s, e, m, now);
  }

  /** How many of n queued rows k cycles with this limit can handle. */
  function Handled(n: nat, limit: nat, k: nat): (m: nat)
    ensures m <= n
  {
    if k == 0 then 0 else Min(n, Handled(n, limit, k - 1) + limit)
  }

  lemma {:induction false} HandledIs(n: nat, limit: nat, k: nat)
    ensures Handled(n, limit, k) == Min(n, k * limit)
  {
    if k == 0 {
    } else {
      HandledIs(n, limit, k - 1);
      assert k * limit == (k - 1) * limit + limit;
    }
  }

  /** One more cycle, when the first before rows of the queue e have gone. */
  lemma CycleAdvances(cfg: HookConfig, net: Net, s: State, s1: State, e: seq<nat>, before: nat, limit: nat, now: int)
    requires cfg.url && Reliable(net)
    requires before <= |e| && Eligible(s1.outbox) == e[before..] && SentInOrder(s, s1, e, before)
    ensures var m: nat := Min(|e|, before + limit);
            && Eligible(Drain(cfg, net, s1, limit, now).0.outbox) == e[m..]
            && SentInOrder(s, Drain(cfg, net, s1, limit, now).0, e, m)
  {
    var k: nat := Min(|e|, before + limit) - before;
    var t := Drain(cfg, net, s1, limit, now).0;
    assert |e[before..]| == |e| - before;
    DrainDelivers(cfg, net, s1, limit, now);
    assert Eligible(t.outbox) == e[before..][k..] && SentInOrder(s1, t, e[before..], k);
    assert e[before..][k..] == e[before + k..];
    SentThen(s, s1, t, e, before, k);
  }

  /** After k cycles the first k * limit rows of the queue are gone, oldest first, each sent once and in
      queue order. */
  lemma {:induction false} CyclesDeliver(cfg: HookConfig, net: Net, w: WorkerConfig, clock: nat -> int,
                                         states: seq<State>, rs: seq<CycleResult>, k: nat)
    requires cfg.url && Reliable(net) && Traced(cfg, net, w, clock, states, rs) && k <= |rs|
    ensures var (e, m) := (Eligible(states[0].outbox), Handled(|Eligible(states[0].outbox)|, w.limit, k));
            Eligible(states[k].outbox) == e[m..] && SentInOrder(states[0], states[k], e, m)
  {
    var e := Eligible(states[0].outbox);
    if k == 0 {
      assert e[0..] == e;
    } else {
      CyclesDeliver(cfg, net, w, clock, states, rs, k - 1);
      assert CycleStep(cfg, net, w, clock(k - 1), states[k - 1], rs[k - 1].result, states[k]);
      CycleAdvances(cfg, net, states[0], states[k - 1], e, Handled(|e|, w.limit, k - 1), w.limit, clock(k - 1));
    }
  }

  /** What a cycle does with a working network. */
  lemma CycleDelivers(cfg: HookConfig, net: Net, w: WorkerConfig, clock: nat -> int,
                      states: seq<State>, rs: seq<CycleResult>, k: nat)
    requires cfg.url && Reliable(net) && Traced(cfg, net, w, clock, states, rs) && k < |rs|
    ensures var (r, n) := (rs[k].result, |Eligible(states[0].outbox)|);
            && r.processed == r.delivered == Handled(n, w.limit, k + 1) - Handled(n, w.limit, k)
            && r.failed == 0 && (r.idle <==> r.processed == 0)
  {
    CyclesDeliver(cfg, net, w, clock, states, rs, k);
    assert CycleStep(cfg, net, w, clock(k), states[k], rs[k].result, states[k + 1]);
    DrainDelivers(cfg, net, states[k], w.limit, clock(k));
  }

  /** Which cycles are idle: exactly those that start after the queue has been emptied. */
  lemma IdleIffDone(cfg: HookConfig, net: Net, w: WorkerConfig, clock: nat -> int,
                    states: seq<State>, rs: seq<CycleResult>, k: nat)
    requires cfg.url && Reliable(net) && Traced(cfg, net, w, clock, states, rs) && k < |rs| && w.limit >= 1
    ensures rs[k].result.idle <==> k * w.limit >= |Eligible(states[0].outbox)|
  {
    CycleDelivers(cfg, net, w, clock, states, rs, k);
    HandledIs(|Eligible(states[0].outbox)|, w.limit, k);
  }

  lemma {:induction false} SumsOf(cfg: HookConfig, net: Net, w: WorkerConfig, clock: nat -> int,
                                  states: seq<State>, rs: seq<CycleResult>, k: nat)
    requires cfg.url && Reliable(net) && Traced(cfg, net, w, clock, states, rs) && k <= |rs|
    ensures SumDelivered(rs[..k]) == SumProcessed(rs[..k]) == Handled(|Eligible(states[0].outbox)|, w.limit, k)
    ensures SumFailed(rs[..k]) == 0
  {
    if k == 0 {
    } else {
      SumsOf(cfg, net, w, clock, states, rs, k - 1);
      CycleDelivers(cfg, net, w, clock, states, rs, k - 1);
      assert rs[..k][..k - 1] == rs[..k - 1];
    }
  }

  /** Convergence: n cycles with limit L deliver exactly min(queue, n * L) rows. */
  lemma WorkerConverges(cfg: HookConfig, net: Net, w: WorkerConfig, clock: nat -> int, states: seq<State>, n: nat,
                        r: Report)
    requires cfg.url && Reliable(net) && Summed(w, n, r) && Traced(cfg, net, w, clock, states, r.results)
    ensures r.delivered == r.processed == Min(|Eligible(states[0].outbox)|, n * w.limit) && r.failed == 0
  {
    SumsOf(cfg, net, w, clock, states, r.results, n);
    assert r.results[..n] == r.results;
    HandledIs(|Eligible(states[0].outbox)|, w.limit, n);
  }
}
