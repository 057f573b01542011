/** The approval service: it updates its rows in place. Every method is proved against the specification
    functions of Outbox and Worker. */
module ApprovalService {
  import opened Base
  import opened Outbox
  import Delivery
  import opened Worker

  class Service {
    const cfg: HookConfig
    const net: Net
    var approvals: map<Uuid, ApprovalRow>
    var outbox: seq<OutboxRow>
    /** The POSTs made so far. */
    var posts: seq<Post>

    ghost function Now(): State
      reads this
    {
      State(approvals, outbox, posts)
    }

    constructor (cfg: HookConfig, net: Net)
      ensures this.cfg == cfg && this.net == net && Now() == EMPTY
      ensures Delivery.Inv(cfg, Now())
    {
      this.cfg, this.net := cfg, net;
      approvals, outbox, posts := map[], [], [];
    }

    method Send(channel: Channel, payload: EventPayload) returns (outcome: Outcome)
      modifies this`posts
      ensures outcome == net(|old(posts)|)
      ensures posts == old(posts) + [Post(channel, payload, outcome)]
    {
      outcome := net(|posts|);
      posts := posts + [Post(channel, payload, outcome)];
    }

    method EnqueueWebhook(id: Uuid, event: string, payload: EventPayload, now: int)
      modifies this`outbox
      ensures Now() == Enqueue(old(Now()), id, event, payload, now)
    {
      outbox := outbox + [OutboxRow(OutboxEntry(id, event, payload, now), OutPending, 0, None, None, None)];
    }

    method RecordWebhookDelivery(id: Uuid, status: HookStatus, code: Option<int>, error: Option<string>, now: int)
      modifies this`approvals
      ensures approvals == if id in old(approvals)
                           then old(approvals)[id := old(approvals)[id].(
                                hook := Record(old(approvals)[id].hook, status, code, error, now))]
                           else old(approvals)
    {
      if id !in approvals {
        return;
      }
      var row := approvals[id];
      var hook := row.hook;
      hook := hook.(status := status);
      hook := hook.(attempts := hook.attempts + 1);
      hook := hook.(at := Some(now));
      hook := hook.(code := code);
      hook := hook.(error := error);
      approvals := approvals[id := row.(hook := hook)];
    }

    method EmitWebhook(id: Uuid, payload: EventPayload, allowExhausted: bool, now: int)
      modifies this`approvals, this`posts
      ensures Now() == Emit(cfg, net, old(Now()), id, payload, allowExhausted, now)
    {
      if !cfg.url || id !in approvals {
        return;
      }
      var attempts := approvals[id].hook.attempts;
      if attempts >= cfg.maxAttempts && !allowExhausted {
        approvals := approvals[id := approvals[id].(hook := GivenUp(approvals[id].hook))];
        return;
      }
      var outcome := Send(FromEmit(id, allowExhausted), payload);
      match outcome {
        case Accepted(code) =>
          RecordWebhookDelivery(id, HookDelivered, code, None, now);
        case Rejected(message) =>
          var nextAttempt := attempts + 1;
          var status := HookFailed;
          if !allowExhausted {
            status := if nextAttempt < cfg.maxAttempts then HookFailed else HookExhausted;
          }
          RecordWebhookDelivery(id, status, None, Some(message), now);
      }
    }

    method DeliverOutboxItem(i: nat, now: int) returns (ok: bool)
      requires i < |outbox|
      modifies this`outbox, this`posts
      ensures Now() == Deliver(cfg, net, old(Now()), i, now)
      ensures ok == Delivers(cfg, net, old(Now()))
    {
      if !cfg.url {
        return false;
      }
      var row := outbox[i];
      var outcome := Send(FromOutbox(i), row.entry.payload);
      row := row.(attempts := row.attempts + 1, lastAttemptAt := Some(now));
      match outcome {
        case Accepted(_) =>
          row := row.(status := OutDelivered, lastError := None, deliveredAt := Some(now));
          ok := true;
        case Rejected(message) =>
          row := row.(status := OutFailed, lastError := Some(message));
          ok := false;
      }
      outbox := outbox[i := row];
    }

    method DrainOutbox(limit: nat, now: int) returns (r: DrainResult)
      modifies this`outbox, this`posts
      ensures (Now(), r) == Drain(cfg, net, old(Now()), limit, now)
      ensures |outbox| == |old(outbox)|
    {
      EligibleBounds(outbox);
      var rows := Picks(outbox, limit);
      var processed, delivered, failed := 0, 0, 0;
      ghost var total := DrainRows(cfg, net, Now(), rows, now);
      while processed < |rows|
        invariant processed <= |rows| && |outbox| == |old(outbox)|
        invariant InBounds(rows[processed..], |outbox|)
        invariant DrainRows(cfg, net, Now(), rows[processed..], now).0 == total.0
        invariant DrainRows(cfg, net, Now(), rows[processed..], now).1 + delivered == total.1
        invariant 0 <= delivered && processed == delivered + failed
      {
        assert rows[processed..][1..] == rows[processed + 1..];
        var ok := DeliverOutboxItem(rows[processed], now);
        processed := processed + 1;
        if ok {
          delivered := delivered + 1;
        } else {
          failed := failed + 1;
        }
      }
      assert rows[processed..] == [];
      r := DrainResult(processed, delivered, failed, processed == 0);
    }

    method NotifyAll(id: Uuid, payload: EventPayload, allowExhausted: bool, now: int)
      modifies this
      ensures Now() == Notify(cfg, net, old(Now()), id, payload, allowExhausted, now)
    {
      EnqueueWebhook(id, payload.event, payload, now);
      EmitWebhook(id, payload, allowExhausted, now);
      if cfg.autoDrain {
        var _ := DrainOutbox(cfg.autoDrainLimit, now);
      }
    }

    /** The row of a request, if it has one. */
    method FindByRequest(requestId: Uuid) returns (found: Option<Uuid>)
      ensures found.None? <==> !KnownRequest(Now(), requestId)
      ensures found.Some? ==> found.value in approvals && approvals[found.value].subject.requestId == requestId
    {
      var todo := approvals.Keys;
      while todo != {}
        invariant todo <= approvals.Keys
        invariant forall x | x in approvals.Keys - todo :: approvals[x].subject.requestId != requestId
        decreases todo
      {
        var x :| x in todo;
        if approvals[x].subject.requestId == requestId {
          return Some(x);
        }
        todo := todo - {x};
      }
      return None;
    }

    /** Stores a request for approval under newId, unless the request already has a row. */
    method CreateRequest(newId: Uuid, n: NewApproval, now: int) returns (id: Uuid)
      requires Delivery.Inv(cfg, Now()) && newId !in approvals
      modifies this
      ensures Delivery.Inv(cfg, Now())
      ensures Now() == Create(cfg, net, old(Now()), newId, n, now)
      ensures id in approvals && approvals[id].subject.requestId == n.requestId
      ensures id == newId <==> !KnownRequest(old(Now()), n.requestId)
    {
      Delivery.CreateOk(cfg, net, Now(), newId, n, now);
      var existing := FindByRequest(n.requestId);
      if existing.Some? {
        return existing.value;
      }
      var row := NewRow(cfg, newId, n, now);
      approvals := approvals[newId := row];
      NotifyAll(newId, BuildPayload(row, "approval.created"), false, now);
      id := newId;
    }

    method DecideRequest(id: Uuid, approved: bool, approver: string, comment: Option<string>,
                         now: int) returns (found: bool)
      requires Delivery.Inv(cfg, Now())
      modifies this
      ensures Delivery.Inv(cfg, Now())
      ensures Now() == Decide(cfg, net, old(Now()), id, approved, approver, comment, now)
      ensures found <==> id in old(approvals)
    {
      Delivery.DecideOk(cfg, net, Now(), id, approved, approver, comment, now);
      if id !in approvals {
        return false;
      }
      var row := approvals[id];
      var review := row.review;
      review := review.(approved := Some(approved));
      review := review.(approverId := Some(approver));
      review := review.(reviewedAt := Some(now));
      review := review.(comment := comment);
      row := row.(review := review);
      approvals := approvals[id := row];
      NotifyAll(id, BuildPayload(row, if approved then "approval.approved" else "approval.denied"), false, now);
      found := true;
    }

    method RetryWebhook(id: Uuid, now: int) returns (found: bool)
      requires Delivery.Inv(cfg, Now())
      modifies this
      ensures Delivery.Inv(cfg, Now())
      ensures Now() == Retry(cfg, net, old(Now()), id, now)
      ensures found <==> id in old(approvals)
    {
      Delivery.RetryOk(cfg, net, Now(), id, now);
      if id !in approvals {
        return false;
      }
      NotifyAll(id, BuildRetryPayload(approvals[id]), true, now);
      found := true;
    }

    /** The bounded worker. It reports what each cycle did and the sleeps it made; states are the states
        between the cycles. */
    method RunWorker(cycles: int, w: WorkerConfig, clock: nat -> int)
      returns (r: Report, slept: seq<real>, ghost states: seq<State>)
      modifies this`outbox, this`posts
      ensures r.cycles == cycles && Summed(w, Max(0, cycles), r)
      ensures Traced(cfg, net, w, clock, states, r.results)
      ensures states[0] == old(Now()) && states[|r.results|] == Now()
      ensures slept == SleepsOfRun(w, r.results, cycles)
    {
      states := [Now()];
      r := Report(cycles, 0, 0, 0, 0, []);
      slept := [];
      var current := w.sleep;
      var cycle: nat := 0;
      while cycle < cycles
        invariant cycle <= Max(0, cycles)
        invariant r.cycles == cycles && Summed(w, cycle, r)
        invariant Traced(cfg, net, w, clock, states, r.results)
        invariant states[0] == old(Now()) && states[|r.results|] == Now()
        invariant current == SleepAfter(w, r.results) && slept == SleepsOfRun(w, r.results, cycles)
        decreases cycles - cycle
      {
        var result := DrainOutbox(w.limit, clock(cycle));
        TraceGrows(cfg, net, w, clock, states, r.results, Now(), CycleResult(cycle + 1, result, current));
        SummedGrows(w, cycle, r, result);
        SleepsGrow(w, r.results, CycleResult(cycle + 1, result, current), cycles);
        states := states + [Now()];
        r := AddCycle(r, result, current);
        current := NextSleep(w, current, result.idle);
        if cycle < cycles - 1 && current > 0.0 {
          slept := slept + [current];
        }
        cycle := cycle + 1;
      }
    }

    /** Total, pending, failed and delivered rows. */
    method OutboxSummary() returns (total: nat, pending: nat, failed: nat, delivered: nat)
      ensures total == |outbox| == pending + failed + delivered
      ensures pending == CountStatus(outbox, OutPending) && failed == CountStatus(outbox, OutFailed)
      ensures delivered == CountStatus(outbox, OutDelivered)
    {
      total, pending, failed, delivered := |outbox|, 0, 0, 0;
      for i := 0 to |outbox|
        invariant pending == CountStatus(outbox[..i], OutPending) && failed == CountStatus(outbox[..i], OutFailed)
        invariant delivered == CountStatus(outbox[..i], OutDelivered) && i == pending + failed + delivered
      {
        assert outbox[..i + 1][..i] == outbox[..i];
        match outbox[i].status {
          case OutPending => pending := pending + 1;
          case OutFailed => failed := failed + 1;
          case OutDelivered => delivered := delivered + 1;
        }
      }
      assert outbox[..|outbox|] == outbox;
    }
  }
}
