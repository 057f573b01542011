/** What the outbox says: one entry for each approval that is stored, decided or retried, in that order, and
    each entry tells the truth about its approval. */
module Announcements {
  import opened Base
  import opened Outbox
  import opened Delivery

  /** The entry names an existing approval and its real request, agent and tool, and the status that goes
      with its event; the announcement of a new approval carries its risk. */
  ghost predicate EntryTrue(approvals: map<Uuid, ApprovalRow>, e: OutboxEntry) {
    && e.approvalId in approvals
    && var (subject, p) := (approvals[e.approvalId].subject, e.payload);
    && p.event == e.event && p.approvalId == e.approvalId
    && p.requestId == subject.requestId && p.agentId == subject.agentId && p.tool == subject.tool
    && (e.event == "approval.created"
       ==> p.status == "pending" && p.risk == Some((subject.riskScore, subject.riskLevel)))
    && (e.event == "approval.approved" ==> p.status == "approved")
    && (e.event == "approval.denied" ==> p.status == "denied")
  }

  ghost predicate AllTrue(s: State) {
    forall i | 0 <= i < |s.outbox| :: EntryTrue(s.approvals, s.outbox[i].entry)
  }

  /** The table grew by one row with this entry. */
  ghost predicate Added(s: State, t: State, e: OutboxEntry) {
    && |t.outbox| == |s.outbox| + 1 && t.outbox[|s.outbox|].entry == e
    && forall i | 0 <= i < |s.outbox| :: t.outbox[i].entry == s.outbox[i].entry
  }

  lemma AddedTrue(s: State, t: State, e: OutboxEntry)
    requires AllTrue(s) && Evolves(s, t) && Added(s, t, e) && EntryTrue(t.approvals, e)
    ensures AllTrue(t)
  {
    forall i | 0 <= i < |t.outbox| ensures EntryTrue(t.approvals, t.outbox[i].entry) {
      if i < |s.outbox| {
        assert EntryTrue(s.approvals, s.outbox[i].entry);
      }
    }
  }

  function CreatedEntry(cfg: HookConfig, id: Uuid, n: NewApproval, now: int): OutboxEntry {
    OutboxEntry(id, "approval.created", BuildPayload(NewRow(cfg, id, n, now), "approval.created"), now)
  }

  lemma CreateTells(cfg: HookConfig, net: Net, s: State, id: Uuid, n: NewApproval, now: int)
    requires Inv(cfg, s) && AllTrue(s) && id !in s.approvals && !KnownRequest(s, n.requestId)
    ensures var t := Create(cfg, net, s, id, n, now); AllTrue(t) && Added(s, t, CreatedEntry(cfg, id, n, now))
  {
    var (s1, t) := (Stored(cfg, s, id, n, now), Create(cfg, net, s, id, n, now));
    CreateOk(cfg, net, s, id, n, now);
    StoredOk(cfg, s, id, n, now);
    NotifyOk(cfg, net, s1, id, CreatedEntry(cfg, id, n, now).payload, false, now);
    assert id in s1.approvals;
    AddedTrue(s, t, CreatedEntry(cfg, id, n, now));
  }

  function DecidedEvent(approved: bool): string {
    if approved then "approval.approved" else "approval.denied"
  }

  lemma DecideTells(cfg: HookConfig, net: Net, s: State, id: Uuid, approved: bool, approver: string,
                    comment: Option<string>, now: int)
    returns (e: OutboxEntry)
    requires Inv(cfg, s) && AllTrue(s) && id in s.approvals
    ensures var t := Decide(cfg, net, s, id, approved, approver, comment, now); AllTrue(t) && Added(s, t, e)
    ensures e.approvalId == id && e.event == DecidedEvent(approved)
  {
    var (s1, t) := (Reviewed(s, id, approved, approver, comment, now),
                    Decide(cfg, net, s, id, approved, approver, comment, now));
    DecideOk(cfg, net, s, id, approved, approver, comment, now);
    ReviewedOk(cfg, s, id, approved, approver, comment, now);
    var payload := BuildPayload(s1.approvals[id], DecidedEvent(approved));
    NotifyOk(cfg, net, s1, id, payload, false, now);
    e := OutboxEntry(id, payload.event, payload, now);
    assert id in s1.approvals && s.approvals[id].subject.id == id;
    AddedTrue(s, t, e);
  }

  lemma RetryTells(cfg: HookConfig, net: Net, s: State, id: Uuid, now: int) returns (e: OutboxEntry)
    requires Inv(cfg, s) && AllTrue(s) && id in s.approvals
    ensures var t := Retry(cfg, net, s, id, now); AllTrue(t) && Added(s, t, e)
    ensures e.approvalId == id && e.event == "approval.retry"
  {
    var payload := BuildRetryPayload(s.approvals[id]);
    NotifyOk(cfg, net, s, id, payload, true, now);
    e := OutboxEntry(id, payload.event, payload, now);
    assert s.approvals[id].subject.id == id;
    AddedTrue(s, Retry(cfg, net, s, id, now), e);
  }

  lemma DrainTells(cfg: HookConfig, net: Net, s: State, limit: nat, now: int)
    requires Inv(cfg, s) && AllTrue(s)
    ensures var t := Drain(cfg, net, s, limit, now).0;
            && AllTrue(t) && |t.outbox| == |s.outbox|
            && forall i | 0 <= i < |s.outbox| :: t.outbox[i].entry == s.outbox[i].entry
  {
    DrainOk(cfg, net, s, limit, now);
    DrainCounts(cfg, net, s, limit, now);
    var t := Drain(cfg, net, s, limit, now).0;
    forall i | 0 <= i < |t.outbox| ensures EntryTrue(t.approvals, t.outbox[i].entry) {
      assert EntryTrue(s.approvals, s.outbox[i].entry);
    }
  }
}
