/** The delivery state machine: what holds of approval rows, outbox rows and the POSTs that were really
    made, after any sequence of operations. */
module Delivery {
  import opened Base
  import opened Outbox

  // ---------- counting POSTs ----------

  function CountOn(posts: seq<Post>, ch: Channel): nat {
    if posts == [] then 0
    else CountOn(posts[..|posts| - 1], ch) + if posts[|posts| - 1].channel == ch then 1 else 0
  }

  function AcceptedOn(posts: seq<Post>, ch: Channel): nat {
    if posts == [] then 0
    else AcceptedOn(posts[..|posts| - 1], ch)
         + if posts[|posts| - 1].channel == ch && posts[|posts| - 1].outcome.Accepted? then 1 else 0
  }

  lemma OneMore(posts: seq<Post>, p: Post)
    ensures forall ch :: CountOn(posts + [p], ch) == CountOn(posts, ch) + if p.channel == ch then 1 else 0
    ensures forall ch :: AcceptedOn(posts + [p], ch)
                         == AcceptedOn(posts, ch) + if p.channel == ch && p.outcome.Accepted? then 1 else 0
  {
    assert (posts + [p])[..|posts|] == posts;
  }

  lemma {:induction false} NoneOn(posts: seq<Post>, ch: Channel)
    requires forall k | 0 <= k < |posts| :: posts[k].channel != ch
    ensures CountOn(posts, ch) == 0 && AcceptedOn(posts, ch) == 0
    decreases |posts|
  {
    if posts == [] {
    } else {
      NoneOn(posts[..|posts| - 1], ch);
    }
  }

  lemma {:induction false} SomeAccepted(posts: seq<Post>, ch: Channel) returns (k: nat)
    requires AcceptedOn(posts, ch) > 0
    ensures k < |posts| && posts[k].channel == ch && posts[k].outcome.Accepted?
    decreases |posts|
  {
    var last := posts[|posts| - 1];
    if last.channel == ch && last.outcome.Accepted? {
      k := |posts| - 1;
    } else {
      k := SomeAccepted(posts[..|posts| - 1], ch);
    }
  }

  // ---------- the invariant ----------

  /** An outbox row tells the truth about its own POSTs: how many there were, and that exactly one was
      accepted if and only if it is delivered. */
  ghost predicate RowOk(posts: seq<Post>, row: OutboxRow, i: nat) {
    && row.attempts == CountOn(posts, FromOutbox(i))
    && AcceptedOn(posts, FromOutbox(i)) == (if row.status == OutDelivered then 1 else 0)
    && (row.deliveredAt.Some? <==> row.status == OutDelivered)
    && (row.status == OutPending <==> row.attempts == 0)
  }

  /** An approval row counts its immediate notifications; apart from retries there are never more than
      the configured maximum; exhausted means the maximum was reached. */
  ghost predicate HookOk(cfg: HookConfig, posts: seq<Post>, a: ApprovalRow) {
    && a.hook.attempts == CountOn(posts, FromEmit(a.subject.id, false)) + CountOn(posts, FromEmit(a.subject.id, true))
    && CountOn(posts, FromEmit(a.subject.id, false)) <= Max(0, cfg.maxAttempts)
    && (a.hook.status == HookExhausted ==> a.hook.attempts >= cfg.maxAttempts)
  }

  ghost predicate PostOk(s: State, p: Post) {
    match p.channel
    case FromOutbox(i) => i < |s.outbox| && p.payload == s.outbox[i].entry.payload
    case FromEmit(id, _) => id in s.approvals
  }

  ghost predicate Keyed(approvals: map<Uuid, ApprovalRow>) {
    && (forall id | id in approvals :: approvals[id].subject.id == id)
    && (forall id, id' | id in approvals && id' in approvals
                         && approvals[id].subject.requestId == approvals[id'].subject.requestId :: id == id')
  }

  ghost predicate Inv(cfg: HookConfig, s: State) {
    && Keyed(s.approvals)
    && (forall i | 0 <= i < |s.outbox| :: RowOk(s.posts, s.outbox[i], i))
    && (forall k | 0 <= k < |s.posts| :: PostOk(s, s.posts[k]))
    && (forall id | id in s.approvals :: HookOk(cfg, s.posts, s.approvals[id]))
  }

  /** What an operation may never change: rows stay, a delivered outbox row stays as it is, an outbox
      payload and the identity, tool, parameters and expiry of an approval are fixed for good, and sent
      POSTs are history. */
  ghost predicate Evolves(s: State, t: State) {
    && s.posts <= t.posts
    && |s.outbox| <= |t.outbox|
    && (forall i | 0 <= i < |s.outbox| ::
          && t.outbox[i].entry == s.outbox[i].entry
          && (s.outbox[i].status == OutDelivered ==> t.outbox[i] == s.outbox[i]))
    && (forall id | id in s.approvals :: id in t.approvals && t.approvals[id].subject == s.approvals[id].subject)
  }

  lemma EvolvesTransitive(s: State, t: State, u: State)
    requires Evolves(s, t) && Evolves(t, u)
    ensures Evolves(s, u)
  {
  }

  // ---------- the primitive steps ----------

  lemma EnqueueOk(cfg: HookConfig, s: State, id: Uuid, event: string, payload: EventPayload, now: int)
    requires Inv(cfg, s)
    ensures Inv(cfg, Enqueue(s, id, event, payload, now)) && Evolves(s, Enqueue(s, id, event, payload, now))
  {
    var t := Enqueue(s, id, event, payload, now);
    forall k | 0 <= k < |s.posts| ensures s.posts[k].channel != FromOutbox(|s.outbox|) && PostOk(t, s.posts[k]) {
      assert PostOk(s, s.posts[k]);
    }
    NoneOn(s.posts, FromOutbox(|s.outbox|));
    forall i | 0 <= i < |t.outbox| ensures RowOk(t.posts, t.outbox[i], i) {
      if i < |s.outbox| { assert RowOk(s.posts, s.outbox[i], i); }
    }
  }

  lemma DeliverOk(cfg: HookConfig, net: Net, s: State, i: nat, now: int)
    requires Inv(cfg, s) && i < |s.outbox| && s.outbox[i].status != OutDelivered
    ensures Inv(cfg, Deliver(cfg, net, s, i, now)) && Evolves(s, Deliver(cfg, net, s, i, now))
  {
    var t := Deliver(cfg, net, s, i, now);
    if cfg.url {
      OneMore(s.posts, t.posts[|s.posts|]);
      forall j | 0 <= j < |t.outbox| ensures RowOk(t.posts, t.outbox[j], j) {
        assert RowOk(s.posts, s.outbox[j], j);
      }
      forall k | 0 <= k < |t.posts| ensures PostOk(t, t.posts[k]) {
        if k < |s.posts| { assert PostOk(s, s.posts[k]); }
      }
      forall id | id in t.approvals ensures HookOk(cfg, t.posts, t.approvals[id]) {
        assert HookOk(cfg, s.posts, s.approvals[id]);
      }
    }
  }

  lemma KeyedAfter(s: State, id: Uuid, row: ApprovalRow)
    requires Keyed(s.approvals) && row.subject.id == id
    requires if id in s.approvals then s.approvals[id].subject == row.subject
             else !KnownRequest(s, row.subject.requestId)
    ensures Keyed(s.approvals[id := row])
  {
  }

  /** Writing one approval row, whose webhook columns fit the POSTs made so far. */
  lemma WriteApprovalOk(cfg: HookConfig, s: State, id: Uuid, row: ApprovalRow)
    requires Inv(cfg, s) && row.subject.id == id && HookOk(cfg, s.posts, row)
    requires if id in s.approvals then s.approvals[id].subject == row.subject
             else !KnownRequest(s, row.subject.requestId)
    ensures Inv(cfg, s.(approvals := s.approvals[id := row]))
    ensures Evolves(s, s.(approvals := s.approvals[id := row]))
  {
    var t := s.(approvals := s.approvals[id := row]);
    KeyedAfter(s, id, row);
    forall k | 0 <= k < |t.posts| ensures PostOk(t, t.posts[k]) {
      assert PostOk(s, s.posts[k]);
    }
    assert t.outbox == s.outbox && t.posts == s.posts;
  }

  /** One immediate notification, recorded on its approval. */
  lemma EmitPostOk(cfg: HookConfig, s: State, id: Uuid, row: ApprovalRow, p: Post)
    requires Inv(cfg, s) && id in s.approvals && s.approvals[id].subject == row.subject
    requires p.channel.FromEmit? && p.channel.approvalId == id
             && (p.channel.retry || s.approvals[id].hook.attempts < cfg.maxAttempts)
    requires row.hook.attempts == s.approvals[id].hook.attempts + 1
    requires row.hook.status == HookExhausted ==> row.hook.attempts >= cfg.maxAttempts
    ensures var t := s.(approvals := s.approvals[id := row], posts := s.posts + [p]); Inv(cfg, t) && Evolves(s, t)
  {
    var t := s.(approvals := s.approvals[id := row], posts := s.posts + [p]);
    OneMore(s.posts, p);
    KeyedAfter(s, id, row);
    forall k | 0 <= k < |t.posts| ensures PostOk(t, t.posts[k]) {
      if k < |s.posts| { assert PostOk(s, s.posts[k]); }
    }
    assert t.outbox == s.outbox;
    EmitHooksOk(cfg, s, id, row, p);
  }

  lemma EmitHooksOk(cfg: HookConfig, s: State, id: Uuid, row: ApprovalRow, p: Post)
    requires (forall x | x in s.approvals :: s.approvals[x].subject.id == x && HookOk(cfg, s.posts, s.approvals[x]))
    requires id in s.approvals && s.approvals[id].subject == row.subject
    requires p.channel.FromEmit? && p.channel.approvalId == id
             && (p.channel.retry || s.approvals[id].hook.attempts < cfg.maxAttempts)
    requires row.hook.attempts == s.approvals[id].hook.attempts + 1
    requires row.hook.status == HookExhausted ==> row.hook.attempts >= cfg.maxAttempts
    ensures var after := s.approvals[id := row]; forall x | x in after :: HookOk(cfg, s.posts + [p], after[x])
  {
    OneMore(s.posts, p);
    var after := s.approvals[id := row];
    forall x | x in after ensures HookOk(cfg, s.posts + [p], after[x]) {
      assert HookOk(cfg, s.posts, s.approvals[x]);
    }
  }

  lemma EmitOk(cfg: HookConfig, net: Net, s: State, id: Uuid, payload: EventPayload, retry: bool, now: int)
    requires Inv(cfg, s)
    ensures Inv(cfg, Emit(cfg, net, s, id, payload, retry, now))
            && Evolves(s, Emit(cfg, net, s, id, payload, retry, now))
  {
    if cfg.url && id in s.approvals {
      var a := s.approvals[id];
      assert HookOk(cfg, s.posts, a);
      if a.hook.attempts >= cfg.maxAttempts && !retry {
        WriteApprovalOk(cfg, s, id, a.(hook := GivenUp(a.hook)));
      } else {
        var outcome := net(|s.posts|);
        EmitPostOk(cfg, s, id, a.(hook := HookAfter(cfg, a.hook, retry, outcome, now)),
                   Post(FromEmit(id, retry), payload, outcome));
      }
    }
  }

  lemma EmitKeepsDecisions(cfg: HookConfig, net: Net, s: State, id: Uuid, payload: EventPayload, retry: bool, now: int)
    ensures SameDecisions(s, Emit(cfg, net, s, id, payload, retry, now))
    ensures Emit(cfg, net, s, id, payload, retry, now).outbox == s.outbox
  {
  }

  /** The same approvals with the same decisions. */
  ghost predicate SameDecisions(s: State, t: State) {
    && t.approvals.Keys == s.approvals.Keys
    && forall id | id in s.approvals :: t.approvals[id].review.approved == s.approvals[id].review.approved
  }

  lemma {:induction false} DrainRowsOk(cfg: HookConfig, net: Net, s: State, picks: seq<nat>, now: int)
    requires Inv(cfg, s) && InBounds(picks, |s.outbox|) && Queued(picks, s.outbox)
    ensures Inv(cfg, DrainRows(cfg, net, s, picks, now).0)
    ensures Evolves(s, DrainRows(cfg, net, s, picks, now).0)
    decreases |picks|
  {
    if picks == [] {
    } else {
      var s1 := Deliver(cfg, net, s, picks[0], now);
      DeliverOk(cfg, net, s, picks[0], now);
      DrainRowsOk(cfg, net, s1, picks[1..], now);
      EvolvesTransitive(s, s1, DrainRows(cfg, net, s1, picks[1..], now).0);
    }
  }

  lemma DrainOk(cfg: HookConfig, net: Net, s: State, limit: nat, now: int)
    requires Inv(cfg, s)
    ensures Inv(cfg, Drain(cfg, net, s, limit, now).0) && Evolves(s, Drain(cfg, net, s, limit, now).0)
    ensures Drain(cfg, net, s, limit, now).0.approvals == s.approvals
  {
    EligibleBounds(s.outbox);
    DrainRowsOk(cfg, net, s, Picks(s.outbox, limit), now);
    DrainCounts(cfg, net, s, limit, now);
  }

  lemma NotifyOk(cfg: HookConfig, net: Net, s: State, id: Uuid, payload: EventPayload, retry: bool, now: int)
    requires Inv(cfg, s)
    ensures var t := Notify(cfg, net, s, id, payload, retry, now);
            && Inv(cfg, t) && Evolves(s, t) && SameDecisions(s, t) && |t.outbox| == |s.outbox| + 1
            && t.outbox[|s.outbox|].entry == OutboxEntry(id, payload.event, payload, now)
  {
    var s1 := Enqueue(s, id, payload.event, payload, now);
    var s2 := Emit(cfg, net, s1, id, payload, retry, now);
    EnqueueOk(cfg, s, id, payload.event, payload, now);
    EmitOk(cfg, net, s1, id, payload, retry, now);
    EmitKeepsDecisions(cfg, net, s1, id, payload, retry, now);
    EvolvesTransitive(s, s1, s2);
    if cfg.autoDrain {
      DrainOk(cfg, net, s2, cfg.autoDrainLimit, now);
      DrainCounts(cfg, net, s2, cfg.autoDrainLimit, now);
      EvolvesTransitive(s, s2, Drain(cfg, net, s2, cfg.autoDrainLimit, now).0);
    }
  }

  // ---------- the operations ----------

  /** The state between storing a new row and announcing it. */
  function Stored(cfg: HookConfig, s: State, id: Uuid, n: NewApproval, now: int): State {
    s.(approvals := s.approvals[id := NewRow(cfg, id, n, now)])
  }

  lemma StoredOk(cfg: HookConfig, s: State, id: Uuid, n: NewApproval, now: int)
    requires Inv(cfg, s) && id !in s.approvals && !KnownRequest(s, n.requestId)
    ensures Inv(cfg, Stored(cfg, s, id, n, now)) && Evolves(s, Stored(cfg, s, id, n, now))
  {
    FreshApproval(cfg, s, id);
    WriteApprovalOk(cfg, s, id, NewRow(cfg, id, n, now));
  }

  lemma CreateOk(cfg: HookConfig, net: Net, s: State, id: Uuid, n: NewApproval, now: int)
    requires Inv(cfg, s) && id !in s.approvals
    ensures Inv(cfg, Create(cfg, net, s, id, n, now)) && Evolves(s, Create(cfg, net, s, id, n, now))
    ensures !KnownRequest(s, n.requestId) ==>
              && SameDecisions(Stored(cfg, s, id, n, now), Create(cfg, net, s, id, n, now))
              && Evolves(Stored(cfg, s, id, n, now), Create(cfg, net, s, id, n, now))
              && |Create(cfg, net, s, id, n, now).outbox| == |s.outbox| + 1
  {
    if !KnownRequest(s, n.requestId) {
      var s1 := Stored(cfg, s, id, n, now);
      StoredOk(cfg, s, id, n, now);
      NotifyOk(cfg, net, s1, id, BuildPayload(NewRow(cfg, id, n, now), "approval.created"), false, now);
      EvolvesTransitive(s, s1, Create(cfg, net, s, id, n, now));
    }
  }

  lemma FreshApproval(cfg: HookConfig, s: State, id: Uuid)
    requires Inv(cfg, s) && id !in s.approvals
    ensures CountOn(s.posts, FromEmit(id, false)) == 0 && CountOn(s.posts, FromEmit(id, true)) == 0
  {
    forall k | 0 <= k < |s.posts|
      ensures s.posts[k].channel != FromEmit(id, false) && s.posts[k].channel != FromEmit(id, true)
    {
      assert PostOk(s, s.posts[k]);
    }
    NoneOn(s.posts, FromEmit(id, false));
    NoneOn(s.posts, FromEmit(id, true));
  }

  /** The state between storing a decision and announcing it. */
  function Reviewed(s: State, id: Uuid, approved: bool, approver: string, comment: Option<string>, now: int): State
    requires id in s.approvals
  {
    s.(approvals := s.approvals[id := Decided(s.approvals[id], approved, approver, comment, now)])
  }

  lemma ReviewedOk(cfg: HookConfig, s: State, id: Uuid, approved: bool, approver: string, comment: Option<string>,
                   now: int)
    requires Inv(cfg, s) && id in s.approvals
    ensures var s1 := Reviewed(s, id, approved, approver, comment, now); Inv(cfg, s1) && Evolves(s, s1)
  {
    assert HookOk(cfg, s.posts, s.approvals[id]);
    WriteApprovalOk(cfg, s, id, Decided(s.approvals[id], approved, approver, comment, now));
  }

  lemma DecideOk(cfg: HookConfig, net: Net, s: State, id: Uuid, approved: bool, approver: string,
                 comment: Option<string>, now: int)
    requires Inv(cfg, s)
    ensures var t := Decide(cfg, net, s, id, approved, approver, comment, now);
            && Inv(cfg, t) && Evolves(s, t)
            && (id in s.approvals ==>
                  SameDecisions(Reviewed(s, id, approved, approver, comment, now), t) && |t.outbox| == |s.outbox| + 1)
  {
    if id in s.approvals {
      var s1 := Reviewed(s, id, approved, approver, comment, now);
      ReviewedOk(cfg, s, id, approved, approver, comment, now);
      var payload := BuildPayload(s1.approvals[id], if approved then "approval.approved" else "approval.denied");
      NotifyOk(cfg, net, s1, id, payload, false, now);
      EvolvesTransitive(s, s1, Decide(cfg, net, s, id, approved, approver, comment, now));
    }
  }

  lemma RetryOk(cfg: HookConfig, net: Net, s: State, id: Uuid, now: int)
    requires Inv(cfg, s)
    ensures var t := Retry(cfg, net, s, id, now);
            && Inv(cfg, t) && Evolves(s, t) && SameDecisions(s, t)
            && |t.outbox| == |s.outbox| + if id in s.approvals then 1 else 0
  {
    if id in s.approvals {
      NotifyOk(cfg, net, s, id, BuildRetryPayload(s.approvals[id]), true, now);
    }
  }

  /** What a decision does to the approvals, whatever is sent afterwards. */
  lemma DecideFrame(cfg: HookConfig, net: Net, s: State, id: Uuid, approved: bool, approver: string,
                    comment: Option<string>, now: int)
    requires Inv(cfg, s) && id in s.approvals
    ensures var t := Decide(cfg, net, s, id, approved, approver, comment, now).approvals;
            && t.Keys == s.approvals.Keys
            && forall x | x in t :: t[x].subject == s.approvals[x].subject
                 && t[x].review.approved == if x == id then Some(approved) else s.approvals[x].review.approved
  {
    DecideOk(cfg, net, s, id, approved, approver, comment, now);
    var (mid, t) := (Reviewed(s, id, approved, approver, comment, now),
                     Decide(cfg, net, s, id, approved, approver, comment, now));
    forall x | x in t.approvals
      ensures x in s.approvals && t.approvals[x].subject == s.approvals[x].subject
        && t.approvals[x].review.approved == if x == id then Some(approved) else s.approvals[x].review.approved
    {
      assert x in mid.approvals;
    }
  }

  lemma StoredFrame(cfg: HookConfig, s: State, id: Uuid, n: NewApproval, now: int)
    requires id !in s.approvals
    ensures var mid := Stored(cfg, s, id, n, now).approvals;
            && mid.Keys == s.approvals.Keys + {id} && mid[id] == NewRow(cfg, id, n, now)
            && forall x | x in s.approvals :: mid[x] == s.approvals[x]
  {
  }

  /** What storing an approval does to the approvals, whatever is sent afterwards. */
  lemma CreateFrame(cfg: HookConfig, net: Net, s: State, id: Uuid, n: NewApproval, now: int)
    requires Inv(cfg, s) && id !in s.approvals && !KnownRequest(s, n.requestId)
    ensures var t := Create(cfg, net, s, id, n, now).approvals;
            && t.Keys == s.approvals.Keys + {id}
            && t[id].subject == NewRow(cfg, id, n, now).subject && t[id].review.approved == None
            && forall x | x in s.approvals ::
                 t[x].subject == s.approvals[x].subject && t[x].review.approved == s.approvals[x].review.approved
  {
    CreateOk(cfg, net, s, id, n, now);
    StoredFrame(cfg, s, id, n, now);
    var (mid, t) := (Stored(cfg, s, id, n, now), Create(cfg, net, s, id, n, now));
    forall x | x in s.approvals
      ensures t.approvals[x].subject == s.approvals[x].subject
      ensures t.approvals[x].review.approved == s.approvals[x].review.approved
    {
      assert x in mid.approvals;
    }
  }

  // ---------- every run ----------

  datatype Op =
    | OpCreate(id: Uuid, n: NewApproval, now: int)
    | OpDecide(id: Uuid, approved: bool, approver: string, comment: Option<string>, now: int)
    | OpRetry(id: Uuid, now: int)
    | OpDrain(limit: nat, now: int)

  /** A new approval gets an id that is not in use. */
  predicate Enabled(s: State, op: Op) {
    op.OpCreate? ==> op.id !in s.approvals
  }

  function Apply(cfg: HookConfig, net: Net, s: State, op: Op): State {
    match op
    case OpCreate(id, n, now) => Create(cfg, net, s, id, n, now)
    case OpDecide(id, approved, approver, comment, now) => Decide(cfg, net, s, id, approved, approver, comment, now)
    case OpRetry(id, now) => Retry(cfg, net, s, id, now)
    case OpDrain(limit, now) => Drain(cfg, net, s, limit, now).0
  }

  ghost predicate IsRun(cfg: HookConfig, net: Net, states: seq<State>, ops: seq<Op>) {
    && |states| == |ops| + 1
    && states[0] == EMPTY
    && forall k | 0 <= k < |ops| :: Enabled(states[k], ops[k]) && states[k + 1] == Apply(cfg, net, states[k], ops[k])
  }

  lemma StepOk(cfg: HookConfig, net: Net, s: State, op: Op)
    requires Inv(cfg, s) && Enabled(s, op)
    ensures Inv(cfg, Apply(cfg, net, s, op)) && Evolves(s, Apply(cfg, net, s, op))
  {
    match op
    case OpCreate(id, n, now) => CreateOk(cfg, net, s, id, n, now);
    case OpDecide(id, approved, approver, comment, now) => DecideOk(cfg, net, s, id, approved, approver, comment, now);
    case OpRetry(id, now) => RetryOk(cfg, net, s, id, now);
    case OpDrain(limit, now) => DrainOk(cfg, net, s, limit, now);
  }

  /** After every sequence of operations, whatever the network did, the tables agree with the POSTs that
      were made; and whatever was true of a row's past stays so: delivered is final. */
  lemma {:induction false} RunOk(cfg: HookConfig, net: Net, states: seq<State>, ops: seq<Op>, k: nat)
    requires IsRun(cfg, net, states, ops) && k <= |ops|
    ensures Inv(cfg, states[k])
    ensures forall j | 0 <= j <= k :: Evolves(states[j], states[k])
  {
    if k == 0 {
    } else {
      RunOk(cfg, net, states, ops, k - 1);
      StepOk(cfg, net, states[k - 1], ops[k - 1]);
      forall j | 0 <= j <= k ensures Evolves(states[j], states[k]) {
        if j < k { EvolvesTransitive(states[j], states[k - 1], states[k]); }
      }
    }
  }

  /** A row is marked delivered only after an accepted POST of the very payload that was enqueued. */
  lemma DeliveredWasSent(cfg: HookConfig, net: Net, states: seq<State>, ops: seq<Op>, k: nat, i: nat)
    requires IsRun(cfg, net, states, ops) && k <= |ops|
    requires i < |states[k].outbox| && states[k].outbox[i].deliveredAt.Some?
    ensures exists p :: 0 <= p < |states[k].posts| && states[k].posts[p].channel == FromOutbox(i)
              && states[k].posts[p].outcome.Accepted? && states[k].posts[p].payload == states[k].outbox[i].entry.payload
  {
    RunOk(cfg, net, states, ops, k);
    assert RowOk(states[k].posts, states[k].outbox[i], i);
    var p := SomeAccepted(states[k].posts, FromOutbox(i));
    assert PostOk(states[k], states[k].posts[p]);
  }

  /** Unless somebody retries by hand, an approval is notified at most maxAttempts times. */
  lemma {:induction false} AttemptsBounded(cfg: HookConfig, net: Net, states: seq<State>, ops: seq<Op>, k: nat,
                                           id: Uuid)
    requires IsRun(cfg, net, states, ops) && k <= |ops| && id in states[k].approvals
    requires CountOn(states[k].posts, FromEmit(id, true)) == 0
    ensures states[k].approvals[id].hook.attempts <= Max(0, cfg.maxAttempts)
    ensures states[k].approvals[id].hook.status == HookExhausted && cfg.maxAttempts >= 0 ==>
              states[k].approvals[id].hook.attempts == cfg.maxAttempts
  {
    RunOk(cfg, net, states, ops, k);
    assert HookOk(cfg, states[k].posts, states[k].approvals[id]);
  }
}
