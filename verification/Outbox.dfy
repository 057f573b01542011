/** Approval rows, their webhook notifications and the outbox: the tables and what each operation of the
    approval service does to them.

    The network is an oracle: its k-th POST has the outcome net(k). Every POST is kept in a history, so
    that delivery can be stated as what was really sent. */
module Outbox {
  import opened Base

  // ---------- tables ----------

  datatype HookStatus = NotConfigured | HookPending | HookDelivered | HookFailed | HookExhausted

  /** The columns of approval_requests that are written once. */
  datatype Subject = Subject(
    id: Uuid, requestId: Uuid, agentId: string, tool: string, params: Params, riskScore: real, riskLevel: RiskLevel,
    createdAt: int, expiresAt: Option<int>)

  /** The human decision. */
  datatype Review = Review(approved: Option<bool>, approverId: Option<string>, reviewedAt: Option<int>,
                           comment: Option<string>)

  /** The webhook columns. */
  datatype Hook = Hook(status: HookStatus, attempts: nat, at: Option<int>, code: Option<int>, error: Option<string>)

  /** A row of approval_requests. */
  datatype ApprovalRow = ApprovalRow(subject: Subject, review: Review, hook: Hook)

  datatype EventPayload = EventPayload(
    event: string, approvalId: Uuid, requestId: Uuid, agentId: string, tool: string, status: string, attempts: nat,
    risk: Option<(real, RiskLevel)>, approverId: Option<string>, comment: Option<string>,
    last: Option<(HookStatus, Option<string>)>)

  datatype OutStatus = OutPending | OutDelivered | OutFailed

  /** The columns of approval_webhook_outbox that are written once. */
  datatype OutboxEntry = OutboxEntry(approvalId: Uuid, event: string, payload: EventPayload, createdAt: int)

  /** A row of approval_webhook_outbox; rows are addressed by their position in created_at order. */
  datatype OutboxRow = OutboxRow(
    entry: OutboxEntry, status: OutStatus, attempts: nat, lastAttemptAt: Option<int>, lastError: Option<string>,
    deliveredAt: Option<int>)

  // ---------- the network ----------

  datatype Outcome = Accepted(code: Option<int>) | Rejected(message: string)

  type Net = nat -> Outcome

  /** Who sends: the drainer for an outbox row, or the immediate notification of an approval. */
  datatype Channel = FromOutbox(row: nat) | FromEmit(approvalId: Uuid, retry: bool)

  datatype Post = Post(channel: Channel, payload: EventPayload, outcome: Outcome)

  datatype HookConfig = HookConfig(url: bool, maxAttempts: int, autoDrain: bool, autoDrainLimit: nat,
                                   expireMinutes: int)

  datatype State = State(approvals: map<Uuid, ApprovalRow>, outbox: seq<OutboxRow>, posts: seq<Post>)

  const EMPTY := State(map[], [], [])

  // ---------- payloads ----------

  function StatusFor(a: ApprovalRow): string {
    if a.review.approved == Some(true) then "approved"
    else if a.review.approved == Some(false) then "denied"
    else "pending"
  }

  /** A truthy string, as the payload builder keeps it. */
  function Truthy(s: Option<string>): Option<string> {
    if s == Some("") then None else s
  }

  function BuildPayload(a: ApprovalRow, event: string): EventPayload {
    EventPayload(event, a.subject.id, a.subject.requestId, a.subject.agentId, a.subject.tool, StatusFor(a),
                 a.hook.attempts,
                 if event == "approval.created" then Some((a.subject.riskScore, a.subject.riskLevel)) else None,
                 Truthy(a.review.approverId), Truthy(a.review.comment), None)
  }

  function BuildRetryPayload(a: ApprovalRow): EventPayload {
    BuildPayload(a, "approval.retry").(last := Some((a.hook.status, a.hook.error)))
  }

  // ---------- primitive steps ----------

  function Enqueue(s: State, id: Uuid, event: string, payload: EventPayload, now: int): State {
    s.(outbox := s.outbox + [OutboxRow(OutboxEntry(id, event, payload, now), OutPending, 0, None, None, None)])
  }

  /** _record_webhook_delivery */
  function Record(h: Hook, status: HookStatus, code: Option<int>, error: Option<string>, now: int): Hook {
    Hook(status, h.attempts + 1, Some(now), code, error)
  }

  /** The webhook columns after a POST. */
  function HookAfter(cfg: HookConfig, h: Hook, retry: bool, outcome: Outcome, now: int): Hook {
    match outcome
    case Accepted(code) => Record(h, HookDelivered, code, None, now)
    case Rejected(message) =>
      Record(h, if retry || h.attempts + 1 < cfg.maxAttempts then HookFailed else HookExhausted, None,
             Some(message), now)
  }

  /** The webhook columns when the attempts are used up. */
  function GivenUp(h: Hook): Hook {
    h.(status := HookExhausted,
       error := if Truthy(h.error) == None then Some("max webhook attempts reached") else h.error)
  }

  /** _emit_webhook: the immediate notification, at most maxAttempts of them unless it is a retry. */
  function Emit(cfg: HookConfig, net: Net, s: State, id: Uuid, payload: EventPayload, retry: bool, now: int): State {
    if !cfg.url || id !in s.approvals then s
    else
      var a := s.approvals[id];
      if a.hook.attempts >= cfg.maxAttempts && !retry then
        s.(approvals := s.approvals[id := a.(hook := GivenUp(a.hook))])
      else
        var outcome := net(|s.posts|);
        s.(approvals := s.approvals[id := a.(hook := HookAfter(cfg, a.hook, retry, outcome, now))],
           posts := s.posts + [Post(FromEmit(id, retry), payload, outcome)])
  }

  /** _deliver_outbox_item for the row at position i. */
  function Deliver(cfg: HookConfig, net: Net, s: State, i: nat, now: int): State
    requires i < |s.outbox|
  {
    if !cfg.url then s
    else
      var row := s.outbox[i];
      var outcome := net(|s.posts|);
      var row' :=
        match outcome
        case Accepted(_) =>
          row.(status := OutDelivered, attempts := row.attempts + 1, lastAttemptAt := Some(now), lastError := None,
               deliveredAt := Some(now))
        case Rejected(message) =>
          row.(status := OutFailed, attempts := row.attempts + 1, lastAttemptAt := Some(now),
               lastError := Some(message));
      s.(outbox := s.outbox[i := row'], posts := s.posts + [Post(FromOutbox(i), row.entry.payload, outcome)])
  }

  function Delivers(cfg: HookConfig, net: Net, s: State): bool {
    cfg.url && net(|s.posts|).Accepted?
  }

  // ---------- draining ----------

  /** The positions of the undelivered rows, oldest first. */
  function Eligible(outbox: seq<OutboxRow>): seq<nat> {
    if outbox == [] then []
    else Eligible(outbox[..|outbox| - 1]) + if outbox[|outbox| - 1].status == OutDelivered then [] else [|outbox| - 1]
  }

  function Picks(outbox: seq<OutboxRow>, limit: nat): seq<nat> {
    var e := Eligible(outbox);
    if limit < |e| then e[..limit] else e
  }

  ghost predicate InBounds(picks: seq<nat>, n: nat) {
    forall k | 0 <= k < |picks| :: picks[k] < n
  }

  /** The loop of drain_outbox over the rows it selected; the second part counts the deliveries. */
  function DrainRows(cfg: HookConfig, net: Net, s: State, picks: seq<nat>, now: int): (State, nat)
    requires InBounds(picks, |s.outbox|)
    decreases |picks|
  {
    if picks == [] then (s, 0)
    else
      var (s', n) := DrainRows(cfg, net, Deliver(cfg, net, s, picks[0], now), picks[1..], now);
      (s', n + if Delivers(cfg, net, s) then 1 else 0)
  }

  datatype DrainResult = DrainResult(processed: nat, delivered: nat, failed: int, idle: bool)

  function Drain(cfg: HookConfig, net: Net, s: State, limit: nat, now: int): (State, DrainResult) {
    EligibleBounds(s.outbox);
    var picks := Picks(s.outbox, limit);
    var (s', delivered) := DrainRows(cfg, net, s, picks, now);
    (s', DrainResult(|picks|, delivered, |picks| - delivered, |picks| == 0))
  }

  // ---------- operations ----------

  function AutoDrain(cfg: HookConfig, net: Net, s: State, now: int): State {
    if cfg.autoDrain then Drain(cfg, net, s, cfg.autoDrainLimit, now).0 else s
  }

  /** Storing an event and sending it: what create, decide and retry have in common. */
  function Notify(cfg: HookConfig, net: Net, s: State, id: Uuid, payload: EventPayload, retry: bool, now: int): State {
    AutoDrain(cfg, net, Emit(cfg, net, Enqueue(s, id, payload.event, payload, now), id, payload, retry, now), now)
  }

  /** What create_request is given. */
  datatype NewApproval = NewApproval(requestId: Uuid, agentId: string, tool: string, params: Params, riskScore: real,
                                     riskLevel: RiskLevel)

  function NewRow(cfg: HookConfig, id: Uuid, n: NewApproval, now: int): ApprovalRow {
    ApprovalRow(
      Subject(id, n.requestId, n.agentId, n.tool, n.params, n.riskScore, n.riskLevel, now,
              if cfg.expireMinutes > 0 then Some(now + cfg.expireMinutes * 60) else None),
      Review(None, None, None, None),
      Hook(if cfg.url then HookPending else NotConfigured, 0, None, None, None))
  }

  predicate KnownRequest(s: State, requestId: Uuid) {
    exists id | id in s.approvals :: s.approvals[id].subject.requestId == requestId
  }

  /** create_request with the id that a new row would get; a known request keeps its row. */
  function Create(cfg: HookConfig, net: Net, s: State, id: Uuid, n: NewApproval, now: int): State {
    if KnownRequest(s, n.requestId) then s
    else
      var row := NewRow(cfg, id, n, now);
      Notify(cfg, net, s.(approvals := s.approvals[id := row]), id, BuildPayload(row, "approval.created"), false, now)
  }

  function Decided(a: ApprovalRow, approved: bool, approver: string, comment: Option<string>, now: int): ApprovalRow {
    a.(review := Review(Some(approved), Some(approver), Some(now), comment))
  }

  function Decide(cfg: HookConfig, net: Net, s: State, id: Uuid, approved: bool, approver: string,
                  comment: Option<string>, now: int): State {
    if id !in s.approvals then s
    else
      var row := Decided(s.approvals[id], approved, approver, comment, now);
      Notify(cfg, net, s.(approvals := s.approvals[id := row]), id,
             BuildPayload(row, if approved then "approval.approved" else "approval.denied"), false, now)
  }

  function Retry(cfg: HookConfig, net: Net, s: State, id: Uuid, now: int): State {
    if id !in s.approvals then s
    else Notify(cfg, net, s, id, BuildRetryPayload(s.approvals[id]), true, now)
  }

  // ---------- eligible rows ----------

  lemma {:induction false} EligibleBounds(outbox: seq<OutboxRow>)
    ensures InBounds(Eligible(outbox), |outbox|)
    ensures forall k | 0 <= k < |Eligible(outbox)| :: outbox[Eligible(outbox)[k]].status != OutDelivered
    ensures forall k, l | 0 <= k < l < |Eligible(outbox)| :: Eligible(outbox)[k] < Eligible(outbox)[l]
  {
    if outbox == [] {
    } else {
      var (n, e) := (|outbox| - 1, Eligible(outbox));
      var front := Eligible(outbox[..n]);
      EligibleBounds(outbox[..n]);
      forall k | 0 <= k < |e| ensures e[k] <= n && outbox[e[k]].status != OutDelivered && (e[k] < n <==> k < |front|) {
        if k < |front| {
          assert e[k] == front[k] && outbox[e[k]] == outbox[..n][front[k]];
        }
      }
      forall k, l | 0 <= k < l < |e| ensures e[k] < e[l] {
        if l < |front| {
          assert front[k] < front[l];
        }
      }
    }
  }

  /** A row that fails again keeps its place in the queue; a delivered one leaves it. */
  lemma {:induction false} EligibleAfter(outbox: seq<OutboxRow>, i: nat, row: OutboxRow)
    requires i < |outbox| && outbox[i].status != OutDelivered
    ensures row.status != OutDelivered ==> Eligible(outbox[i := row]) == Eligible(outbox)
    ensures row.status == OutDelivered ==> |Eligible(outbox[i := row])| == |Eligible(outbox)| - 1
    decreases |outbox|
  {
    var n := |outbox| - 1;
    if i == n {
      assert outbox[i := row][..n] == outbox[..n];
    } else {
      assert outbox[i := row][..n] == outbox[..n][i := row];
      EligibleAfter(outbox[..n], i, row);
    }
  }

  /** Delivering the oldest row leaves the rest of the queue in its order. */
  lemma {:induction false} HeadLeaves(outbox: seq<OutboxRow>, row: OutboxRow)
    requires Eligible(outbox) != [] && row.status == OutDelivered && Eligible(outbox)[0] < |outbox|
    ensures Eligible(outbox[Eligible(outbox)[0] := row]) == Eligible(outbox)[1..]
    decreases |outbox|
  {
    var n, i := |outbox| - 1, Eligible(outbox)[0];
    var front := outbox[..n];
    if Eligible(front) == [] {
      assert outbox[i := row][..n] == front;
    } else {
      EligibleBounds(front);
      assert outbox[i := row][..n] == front[i := row];
      HeadLeaves(front, row);
    }
  }

  /** The picks are undelivered rows, oldest first. */
  ghost predicate Queued(picks: seq<nat>, outbox: seq<OutboxRow>) {
    && (forall j | 0 <= j < |picks| :: picks[j] < |outbox| && outbox[picks[j]].status != OutDelivered)
    && (forall i, j | 0 <= i < j < |picks| :: picks[i] < picks[j])
  }

  lemma {:induction false} DrainRowsCounts(cfg: HookConfig, net: Net, s: State, picks: seq<nat>, now: int)
    requires InBounds(picks, |s.outbox|) && Queued(picks, s.outbox)
    ensures var (s', n) := DrainRows(cfg, net, s, picks, now);
            && s'.approvals == s.approvals
            && |s'.outbox| == |s.outbox|
            && n <= |picks|
            && |Eligible(s'.outbox)| == |Eligible(s.outbox)| - n
            && |s'.posts| == |s.posts| + if cfg.url then |picks| else 0
    decreases |picks|
  {
    if picks == [] {
    } else {
      var s1 := Deliver(cfg, net, s, picks[0], now);
      if cfg.url {
        EligibleAfter(s.outbox, picks[0], s1.outbox[picks[0]]);
      }
      DrainRowsCounts(cfg, net, s1, picks[1..], now);
    }
  }

  /** Every drain handles the oldest undelivered rows up to its limit, each of them with one POST; what it
      handled is either delivered or failed; the undelivered rows shrink by exactly the deliveries, and
      no approval row is touched. */
  lemma DrainCounts(cfg: HookConfig, net: Net, s: State, limit: nat, now: int)
    ensures var (s', r) := Drain(cfg, net, s, limit, now);
            && r.processed == Min(limit, |Eligible(s.outbox)|)
            && r.processed == r.delivered + r.failed && r.failed >= 0
            && |Eligible(s'.outbox)| == |Eligible(s.outbox)| - r.delivered
            && |s'.outbox| == |s.outbox|
            && |s'.posts| == |s.posts| + (if cfg.url then r.processed else 0)
            && s'.approvals == s.approvals
            && (r.idle <==> r.processed == 0)
  {
    EligibleBounds(s.outbox);
    DrainRowsCounts(cfg, net, s, Picks(s.outbox, limit), now);
  }

  // ---------- summary ----------

  function CountStatus(outbox: seq<OutboxRow>, status: OutStatus): nat {
    if outbox == [] then 0
    else CountStatus(outbox[..|outbox| - 1], status) + if outbox[|outbox| - 1].status == status then 1 else 0
  }

  /** The summary adds up, and what is not delivered is what a drain would see. */
  lemma {:induction false} SummaryAddsUp(outbox: seq<OutboxRow>)
    ensures |outbox| == CountStatus(outbox, OutPending) + CountStatus(outbox, OutFailed)
            + CountStatus(outbox, OutDelivered)
    ensures |Eligible(outbox)| == CountStatus(outbox, OutPending) + CountStatus(outbox, OutFailed)
  {
    if outbox == [] {
    } else {
      SummaryAddsUp(outbox[..|outbox| - 1]);
    }
  }
}
