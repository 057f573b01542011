/** When an outbox row is sent: a drain only reaches the oldest undelivered rows, so rows that keep failing
    hold back the ones behind them. */
module Queue {
  import opened Base
  import opened Outbox
  import opened Worker

  /** How many undelivered rows are older than row i. */
  function Ahead(outbox: seq<OutboxRow>, i: nat): nat
    requires i <= |outbox|
  {
    |Eligible(outbox[..i])|
  }

  lemma {:induction false} EligibleSplits(outbox: seq<OutboxRow>, i: nat)
    requires i < |outbox|
    ensures Eligible(outbox[..i]) <= Eligible(outbox)
    ensures var (e, q) := (Eligible(outbox), Ahead(outbox, i));
            && (outbox[i].status != OutDelivered ==> q < |e| && e[q] == i)
            && (outbox[i].status == OutDelivered ==> i !in e)
    decreases |outbox|
  {
    var n := |outbox| - 1;
    EligibleBounds(outbox);
    if i < n {
      assert outbox[..n][..i] == outbox[..i];
      EligibleSplits(outbox[..n], i);
    } else {
      assert outbox[..n] == outbox[..i];
      EligibleBounds(outbox[..i]);
    }
  }

  /** A drain reaches a row if and only if it is undelivered and fewer than limit undelivered rows are
      older. */
  lemma PickedIffNear(outbox: seq<OutboxRow>, i: nat, limit: nat)
    requires i < |outbox|
    ensures i in Picks(outbox, limit) <==> outbox[i].status != OutDelivered && Ahead(outbox, i) < limit
  {
    EligibleSplits(outbox, i);
    EligibleBounds(outbox);
    var (e, q) := (Eligible(outbox), Ahead(outbox, i));
    if outbox[i].status != OutDelivered {
      if q < limit {
        assert Picks(outbox, limit)[q] == i;
      } else {
        assert forall k | 0 <= k < limit :: e[k] < e[q];
      }
    }
  }

  lemma {:induction false} DrainRowsSend(cfg: HookConfig, net: Net, s: State, picks: seq<nat>, now: int, i: nat)
    requires cfg.url && InBounds(picks, |s.outbox|) && i < |s.outbox|
    requires forall j, k | 0 <= j < k < |picks| :: picks[j] < picks[k]
    ensures var t := DrainRows(cfg, net, s, picks, now).0;
            |t.outbox| == |s.outbox| && t.outbox[i].attempts == s.outbox[i].attempts + if i in picks then 1 else 0
    decreases |picks|
  {
    if picks == [] {
    } else {
      DrainRowsSend(cfg, net, Deliver(cfg, net, s, picks[0], now), picks[1..], now, i);
      assert picks == [picks[0]] + picks[1..];
    }
  }

  /** What one drain sends. */
  lemma DrainSendsIff(cfg: HookConfig, net: Net, s: State, limit: nat, now: int, i: nat)
    requires cfg.url && i < |s.outbox|
    ensures var t := Drain(cfg, net, s, limit, now).0;
            var near := s.outbox[i].status != OutDelivered && Ahead(s.outbox, i) < limit;
            |t.outbox| == |s.outbox| && t.outbox[i].attempts == s.outbox[i].attempts + if near then 1 else 0
  {
    EligibleBounds(s.outbox);
    DrainRowsSend(cfg, net, s, Picks(s.outbox, limit), now, i);
    PickedIffNear(s.outbox, i, limit);
  }

  lemma {:induction false} WithoutUrl(cfg: HookConfig, net: Net, s: State, picks: seq<nat>, now: int)
    requires !cfg.url && InBounds(picks, |s.outbox|)
    ensures DrainRows(cfg, net, s, picks, now) == (s, 0)
    decreases |picks|
  {
    if picks == [] {
    } else {
      WithoutUrl(cfg, net, s, picks[1..], now);
    }
  }

  // ---------- rows out of reach ----------

  lemma {:induction false} FarRows(cfg: HookConfig, net: Net, s: State, picks: seq<nat>, now: int, i: nat)
    requires InBounds(picks, |s.outbox|) && Queued(picks, s.outbox) && i < |s.outbox|
    requires forall j | 0 <= j < |picks| :: picks[j] < i
    ensures var (t, delivered) := DrainRows(cfg, net, s, picks, now);
            && |t.outbox| == |s.outbox| && t.outbox[i] == s.outbox[i]
            && Ahead(t.outbox, i) == Ahead(s.outbox, i) - delivered
    decreases |picks|
  {
    if picks == [] {
    } else {
      var s1 := Deliver(cfg, net, s, picks[0], now);
      if cfg.url {
        var row := s1.outbox[picks[0]];
        assert s1.outbox[..i] == s.outbox[..i][picks[0] := row];
        EligibleAfter(s.outbox[..i], picks[0], row);
      }
      FarRows(cfg, net, s1, picks[1..], now, i);
    }
  }

  /** A drain that does not reach an undelivered row brings it nearer by exactly its deliveries. */
  lemma FarDrain(cfg: HookConfig, net: Net, s: State, limit: nat, now: int, i: nat)
    requires i < |s.outbox| && s.outbox[i].status != OutDelivered && Ahead(s.outbox, i) >= limit
    ensures var (t, r) := Drain(cfg, net, s, limit, now);
            && |t.outbox| == |s.outbox| && t.outbox[i] == s.outbox[i]
            && Ahead(t.outbox, i) == Ahead(s.outbox, i) - r.delivered
  {
    EligibleBounds(s.outbox);
    EligibleSplits(s.outbox, i);
    var (e, q) := (Eligible(s.outbox), Ahead(s.outbox, i));
    assert forall j | 0 <= j < limit :: e[j] < e[q];
    FarRows(cfg, net, s, Picks(s.outbox, limit), now, i);
  }

  // ---------- when a row is sent ----------

  /** By what the first k cycles delivered, the row is still out of reach. */
  ghost predicate Far(w: WorkerConfig, start: State, rs: seq<CycleResult>, k: nat, i: nat)
    requires k <= |rs| && i < |start.outbox|
  {
    Ahead(start.outbox, i) >= w.limit + SumDelivered(rs[..k])
  }

  lemma DeliveredGrows(rs: seq<CycleResult>, k: nat)
    requires k < |rs|
    ensures SumDelivered(rs[..k + 1]) == SumDelivered(rs[..k]) + rs[k].result.delivered
  {
    assert rs[..k + 1][..k] == rs[..k];
  }

  lemma {:induction false} Waiting(cfg: HookConfig, net: Net, w: WorkerConfig, clock: nat -> int, states: seq<State>,
                                   rs: seq<CycleResult>, n: nat, i: nat)
    requires Traced(cfg, net, w, clock, states, rs) && n <= |rs|
    requires i < |states[0].outbox| && states[0].outbox[i].status != OutDelivered
    requires n > 0 ==> Far(w, states[0], rs, n - 1, i)
    ensures |states[n].outbox| == |states[0].outbox| && states[n].outbox[i] == states[0].outbox[i]
    ensures Ahead(states[n].outbox, i) == Ahead(states[0].outbox, i) - SumDelivered(rs[..n])
  {
    if n == 0 {
    } else {
      DeliveredGrows(rs, n - 1);
      if n > 1 {
        DeliveredGrows(rs, n - 2);
      }
      Waiting(cfg, net, w, clock, states, rs, n - 1, i);
      assert CycleStep(cfg, net, w, clock(n - 1), states[n - 1], rs[n - 1].result, states[n]);
      FarDrain(cfg, net, states[n - 1], w.limit, clock(n - 1), i);
    }
  }

  lemma AttemptsGrow(cfg: HookConfig, net: Net, s: State, limit: nat, now: int, i: nat)
    requires i < |s.outbox|
    ensures var t := Drain(cfg, net, s, limit, now).0;
            && |t.outbox| == |s.outbox| && t.outbox[i].attempts >= s.outbox[i].attempts && (!cfg.url ==> t == s)
  {
    EligibleBounds(s.outbox);
    if cfg.url {
      DrainSendsIff(cfg, net, s, limit, now, i);
    } else {
      WithoutUrl(cfg, net, s, Picks(s.outbox, limit), now);
    }
  }

  lemma FirstInReach(cfg: HookConfig, net: Net, w: WorkerConfig, clock: nat -> int, states: seq<State>,
                     rs: seq<CycleResult>, k: nat, i: nat)
    requires cfg.url && Traced(cfg, net, w, clock, states, rs) && k < |rs|
    requires i < |states[0].outbox| && states[0].outbox[i].status != OutDelivered
    requires !Far(w, states[0], rs, k, i) && (k > 0 ==> Far(w, states[0], rs, k - 1, i))
    ensures |states[k + 1].outbox| == |states[0].outbox|
    ensures states[k + 1].outbox[i].attempts == states[0].outbox[i].attempts + 1
  {
    assert CycleStep(cfg, net, w, clock(k), states[k], rs[k].result, states[k + 1]);
    Waiting(cfg, net, w, clock, states, rs, k, i);
    DrainSendsIff(cfg, net, states[k], w.limit, clock(k), i);
  }

  lemma AttemptsGrowOn(cfg: HookConfig, net: Net, w: WorkerConfig, clock: nat -> int, states: seq<State>,
                       rs: seq<CycleResult>, k: nat, i: nat)
    requires Traced(cfg, net, w, clock, states, rs) && k < |rs| && i < |states[k].outbox|
    ensures |states[k + 1].outbox| == |states[k].outbox|
    ensures states[k + 1].outbox[i].attempts >= states[k].outbox[i].attempts
    ensures !cfg.url ==> states[k + 1] == states[k]
  {
    assert CycleStep(cfg, net, w, clock(k), states[k], rs[k].result, states[k + 1]);
    AttemptsGrow(cfg, net, states[k], w.limit, clock(k), i);
  }

  /** When an undelivered row is sent at last: within n cycles of the worker if and only if the cycles
      before the n-th delivered enough of the rows ahead of it to leave fewer than limit of them. */
  lemma {:induction false} SentIffEnoughDelivered(cfg: HookConfig, net: Net, w: WorkerConfig, clock: nat -> int,
                                                  states: seq<State>, rs: seq<CycleResult>, n: nat, i: nat)
    requires Traced(cfg, net, w, clock, states, rs) && n <= |rs|
    requires i < |states[0].outbox| && states[0].outbox[i].status != OutDelivered
    ensures |states[n].outbox| == |states[0].outbox| && states[n].outbox[i].attempts >= states[0].outbox[i].attempts
    ensures states[n].outbox[i].attempts > states[0].outbox[i].attempts
            <==> cfg.url && n > 0 && Ahead(states[0].outbox, i) < w.limit + SumDelivered(rs[..n - 1])
  {
    if n == 0 {
    } else {
      SentIffEnoughDelivered(cfg, net, w, clock, states, rs, n - 1, i);
      AttemptsGrowOn(cfg, net, w, clock, states, rs, n - 1, i);
      if n > 1 {
        DeliveredGrows(rs, n - 2);
      }
      if Far(w, states[0], rs, n - 1, i) {
        Waiting(cfg, net, w, clock, states, rs, n, i);
      } else if cfg.url && (n == 1 || Far(w, states[0], rs, n - 2, i)) {
        FirstInReach(cfg, net, w, clock, states, rs, n - 1, i);
      }
    }
  }

  lemma {:induction false} NothingDelivered(rs: seq<CycleResult>)
    requires forall k | 0 <= k < |rs| :: rs[k].result.delivered == 0
    ensures SumDelivered(rs) == 0
  {
    if rs == [] {
    } else {
      NothingDelivered(rs[..|rs| - 1]);
    }
  }

  /** Starvation: while the limit rows at the head of the queue keep failing, no row behind them is ever
      sent, however many cycles the worker makes. */
  lemma FailingHeadStarves(cfg: HookConfig, net: Net, w: WorkerConfig, clock: nat -> int, states: seq<State>,
                           rs: seq<CycleResult>, i: nat)
    requires Traced(cfg, net, w, clock, states, rs) && i < |states[0].outbox|
    requires states[0].outbox[i].status != OutDelivered && Ahead(states[0].outbox, i) >= w.limit
    requires forall k | 0 <= k < |rs| :: rs[k].result.delivered == 0
    ensures |states[|rs|].outbox| == |states[0].outbox|
    ensures states[|rs|].outbox[i].attempts == states[0].outbox[i].attempts
  {
    SentIffEnoughDelivered(cfg, net, w, clock, states, rs, |rs|, i);
    NothingDelivered(if rs == [] then rs else rs[..|rs| - 1]);
  }
}
