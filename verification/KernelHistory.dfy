/** History safety: why every tool run of every run of the kernel was permitted. */
module KernelHistory {
  import opened Base
  import opened Risk
  import opened Policy
  import opened KernelSpec
  import RateLimit
  import Outbox
  import Delivery
  import Capability

  type Trace = seq<Happening>

  // ---------- statements about a trace ----------

  /** The latest human decision on an approval. */
  function LatestReview(tr: Trace, aid: Uuid): Option<bool> {
    if tr == [] then None
    else
      var last := tr[|tr| - 1];
      if last.Reviewed? && last.approvalId == aid then Some(last.approved) else LatestReview(tr[..|tr| - 1], aid)
  }

  ghost predicate WasSubmitted(tr: Trace, rid: Uuid, agent: string, tool: string, params: Params) {
    Submitted(rid, agent, tool, params, true) in tr
  }

  /** Happening a stored the approval aid for this agent, tool and parameters. */
  ghost predicate StoredAt(tr: Trace, a: int, aid: Uuid, agent: string, tool: string, params: Params) {
    && 0 <= a < |tr| && tr[a].ApprovalStored?
    && tr[a].approvalId == aid && tr[a].agent == agent && tr[a].tool == tool && tr[a].params == params
  }

  /** Happening c is a replay check that was right to let the replay pass: the latest decision on the
      approval was to approve, and the approval, stored earlier for the same agent, tool and parameters,
      had not expired. */
  ghost predicate GoodCheck(tr: Trace, c: int, rid: Uuid, aid: Uuid, agent: string, tool: string, params: Params) {
    && 0 <= c < |tr| && tr[c].ReplayChecked? && tr[c].rid == rid && tr[c].approvalId == aid
    && LatestReview(tr[..c], aid) == Some(true)
    && exists a ::
         StoredAt(tr[..c], a, aid, agent, tool, params) && (tr[a].expiresAt.Some? ==> tr[a].expiresAt.value > tr[c].now)
  }

  ghost predicate WasChecked(tr: Trace, rid: Uuid, aid: Uuid, agent: string, tool: string, params: Params) {
    exists c :: GoodCheck(tr, c, rid, aid, agent, tool, params)
  }

  /** The two settings under which a gated tool may run without a human. */
  predicate Unattended(cfg: Config, level: RiskLevel) {
    (cfg.autoApprove && level == Low) || (cfg.anomaly && cfg.mode == "sandbox")
  }

  /** The capability check permits the request, and it can be assessed at this level. */
  ghost predicate Vetted(cfg: Config, req: Request, level: RiskLevel) {
    && Capability.WellFormed(cfg.registry)
    && Capability.ToolVerdict(cfg.registry, req.agent, req.tool, req.params, cfg.host) == Capability.Permit
    && exists h: History :: level == Assess(cfg.profiles, cfg.risk, req, h).level
  }

  /** On the request, at this level, the policy engine can come to this decision. */
  ghost predicate CanDecide(cfg: Config, req: Request, level: RiskLevel, policy: Decision) {
    exists reply: Reply :: policy == Evaluate(req, level, cfg.opa, cfg.availability, reply).decision
  }

  /** This is how a tool may run for a request: for some identity of the agent the check permits the call, and
      level and policy are what is made of it. A gated tool, or a request that the policy denies, runs only
      under the unattended settings. */
  ghost predicate RunOk(cfg: Config, agentId: string, tool: string, params: Params, level: RiskLevel,
                        policy: Decision) {
    && (exists req: Request ::
          && req.agent.id == agentId && req.tool == tool && req.params == params
          && Vetted(cfg, req, level) && CanDecide(cfg, req, level, policy))
    && (tool in GATED_TOOLS || policy == Deny ==> Unattended(cfg, level))
  }

  /** The capability check permits the call to some identity of this agent. */
  ghost predicate Permitted(cfg: Config, agentId: string, tool: string, params: Params) {
    && Capability.WellFormed(cfg.registry)
    && exists agent: Agent ::
         agent.id == agentId && Capability.ToolVerdict(cfg.registry, agent, tool, params, cfg.host) == Capability.Permit
  }

  /** What has to have happened before h. */
  ghost predicate HappeningOk(cfg: Config, before: Trace, h: Happening) {
    match h
    case Submitted(_, agent, tool, params, passed) => passed ==> Permitted(cfg, agent, tool, params)
    case Ran(rid, agent, tool, params, ByRequest, level, policy, _, _) =>
      WasSubmitted(before, rid, agent, tool, params) && RunOk(cfg, agent, tool, params, level, policy)
    case Ran(rid, agent, tool, params, ByReplay(aid), _, _, _, _) =>
      WasChecked(before, rid, aid, agent, tool, params)
    case ApprovalStored(aid, rid, agent, tool, params, at, expiresAt) =>
      && expiresAt == (if cfg.hooks.expireMinutes > 0 then Some(at + 60 * cfg.hooks.expireMinutes) else None)
      && WasSubmitted(before, rid, agent, tool, params)
      && forall k | 0 <= k < |before| && before[k].ApprovalStored? :: before[k].approvalId != aid
    case _ => true
  }

  ghost predicate TraceOk(cfg: Config, tr: Trace) {
    forall k | 0 <= k < |tr| :: HappeningOk(cfg, tr[..k], tr[k])
  }

  // ---------- growing traces ----------

  lemma TraceGrows(cfg: Config, tr: Trace, h: Happening)
    requires TraceOk(cfg, tr) && HappeningOk(cfg, tr, h)
    ensures TraceOk(cfg, tr + [h])
  {
    forall k | 0 <= k < |tr| + 1 ensures HappeningOk(cfg, (tr + [h])[..k], (tr + [h])[k]) {
      if k < |tr| {
        assert (tr + [h])[..k] == tr[..k];
      } else {
        assert (tr + [h])[..k] == tr;
      }
    }
  }

  lemma ReviewGrows(tr: Trace, h: Happening, aid: Uuid)
    ensures LatestReview(tr + [h], aid)
            == if h.Reviewed? && h.approvalId == aid then Some(h.approved) else LatestReview(tr, aid)
  {
    assert (tr + [h])[..|tr|] == tr;
  }

  lemma CheckStays(tr: Trace, h: Happening, rid: Uuid, aid: Uuid, agent: string, tool: string, params: Params)
    requires WasChecked(tr, rid, aid, agent, tool, params)
    ensures WasChecked(tr + [h], rid, aid, agent, tool, params)
  {
    var c :| GoodCheck(tr, c, rid, aid, agent, tool, params);
    assert (tr + [h])[..c] == tr[..c];
    var a :| StoredAt(tr[..c], a, aid, agent, tool, params)
             && (tr[a].expiresAt.Some? ==> tr[a].expiresAt.value > tr[c].now);
    assert StoredAt((tr + [h])[..c], a, aid, agent, tool, params) && (tr + [h])[a] == tr[a];
    assert GoodCheck(tr + [h], c, rid, aid, agent, tool, params);
  }

  // ---------- the invariant ----------

  ghost predicate FlightOk(cfg: Config, tr: Trace, rid: Uuid, f: Flight) {
    && f.risk.level == LevelOf(cfg.risk, f.risk.score)
    && match f
       case AwaitPolicy(req, risk) =>
         WasSubmitted(tr, rid, req.agent.id, req.tool, req.params) && Vetted(cfg, req, risk.level)
       case Running(req, _, _, _, _) => WasSubmitted(tr, rid, req.agent.id, req.tool, req.params)
       case AwaitReplayPolicy(aid, req, _, _) => WasChecked(tr, rid, aid, req.agent.id, req.tool, req.params)
       case RunningReplay(aid, req, _, _, _) => WasChecked(tr, rid, aid, req.agent.id, req.tool, req.params)
  }

  ghost predicate FlightsOk(cfg: Config, tr: Trace, flights: map<Uuid, Flight>, used: set<Uuid>) {
    forall rid | rid in flights :: rid in used && FlightOk(cfg, tr, rid, flights[rid])
  }

  function StoredFor(a: Outbox.ApprovalRow): Happening {
    ApprovalStored(a.subject.id, a.subject.requestId, a.subject.agentId, a.subject.tool, a.subject.params,
                   a.subject.createdAt, a.subject.expiresAt)
  }

  /** The approvals table agrees with the trace: each row was stored exactly as it still reads, and its
      decision is the latest one. */
  ghost predicate TableOk(tr: Trace, approvals: map<Uuid, Outbox.ApprovalRow>) {
    && (forall aid | aid in approvals ::
          StoredFor(approvals[aid]) in tr && LatestReview(tr, aid) == approvals[aid].review.approved)
    && (forall k | 0 <= k < |tr| && tr[k].ApprovalStored? :: tr[k].approvalId in approvals)
    && (forall k | 0 <= k < |tr| && tr[k].Reviewed? :: tr[k].approvalId in approvals)
  }

  /** Requests that have an approval are over. */
  ghost predicate RequestsOver(approvals: map<Uuid, Outbox.ApprovalRow>, flights: map<Uuid, Flight>, used: set<Uuid>) {
    forall aid | aid in approvals ::
      approvals[aid].subject.requestId in used && approvals[aid].subject.requestId !in flights
  }

  ghost predicate Inv(cfg: Config, service: Outbox.State, flights: map<Uuid, Flight>, used: set<Uuid>, tr: Trace) {
    && Delivery.Inv(cfg.hooks, service)
    && TraceOk(cfg, tr)
    && FlightsOk(cfg, tr, flights, used)
    && TableOk(tr, service.approvals)
    && RequestsOver(service.approvals, flights, used)
  }

  ghost predicate WorldInv(cfg: Config, w: World) {
    Inv(cfg, w.service, w.flights, w.used, w.trace)
  }

  // ---------- what the primitive changes keep ----------

  lemma FlightStays(cfg: Config, tr: Trace, h: Happening, rid: Uuid, f: Flight)
    requires FlightOk(cfg, tr, rid, f)
    ensures FlightOk(cfg, tr + [h], rid, f)
  {
    match f
    case AwaitReplayPolicy(aid, req, _, _) => CheckStays(tr, h, rid, aid, req.agent.id, req.tool, req.params);
    case RunningReplay(aid, req, _, _, _) => CheckStays(tr, h, rid, aid, req.agent.id, req.tool, req.params);
    case _ =>
  }

  lemma FlightsStay(cfg: Config, tr: Trace, h: Happening, flights: map<Uuid, Flight>, used: set<Uuid>)
    requires FlightsOk(cfg, tr, flights, used)
    ensures FlightsOk(cfg, tr + [h], flights, used)
  {
    forall rid | rid in flights ensures rid in used && FlightOk(cfg, tr + [h], rid, flights[rid]) {
      FlightStays(cfg, tr, h, rid, flights[rid]);
    }
  }

  lemma TableStays(tr: Trace, h: Happening, approvals: map<Uuid, Outbox.ApprovalRow>)
    requires TableOk(tr, approvals) && !h.ApprovalStored? && !h.Reviewed?
    ensures TableOk(tr + [h], approvals)
  {
    forall aid | aid in approvals
      ensures StoredFor(approvals[aid]) in tr + [h] && LatestReview(tr + [h], aid) == approvals[aid].review.approved
    {
      ReviewGrows(tr, h, aid);
    }
  }

  /** Noting something other than a stored approval or a review. */
  lemma NoteKeeps(cfg: Config, service: Outbox.State, flights: map<Uuid, Flight>, used: set<Uuid>, tr: Trace,
                  h: Happening)
    requires Inv(cfg, service, flights, used, tr)
    requires !h.ApprovalStored? && !h.Reviewed? && HappeningOk(cfg, tr, h)
    ensures Inv(cfg, service, flights, used, tr + [h])
  {
    TraceGrows(cfg, tr, h);
    FlightsStay(cfg, tr, h, flights, used);
    TableStays(tr, h, service.approvals);
  }

  lemma FlightsAfter(cfg: Config, tr: Trace, flights: map<Uuid, Flight>, used: set<Uuid>, rid: Uuid, f: Flight)
    requires FlightsOk(cfg, tr, flights, used) && FlightOk(cfg, tr, rid, f)
    ensures FlightsOk(cfg, tr, flights[rid := f], used + {rid})
    ensures rid in flights ==> FlightsOk(cfg, tr, flights[rid := f], used)
  {
  }

  lemma OverAfterTakeoff(approvals: map<Uuid, Outbox.ApprovalRow>, flights: map<Uuid, Flight>, used: set<Uuid>,
                         rid: Uuid, f: Flight)
    requires RequestsOver(approvals, flights, used) && (rid in flights || rid !in used)
    ensures RequestsOver(approvals, flights[rid := f], used + {rid})
    ensures rid in flights ==> RequestsOver(approvals, flights[rid := f], used)
  {
  }

  /** A request takes off. */
  lemma FlyKeeps(cfg: Config, service: Outbox.State, flights: map<Uuid, Flight>, used: set<Uuid>, tr: Trace, rid: Uuid,
                 f: Flight)
    requires Inv(cfg, service, flights, used, tr)
    requires (rid in flights || rid !in used) && FlightOk(cfg, tr, rid, f)
    ensures Inv(cfg, service, flights[rid := f], used + {rid}, tr)
  {
    FlightsAfter(cfg, tr, flights, used, rid, f);
    OverAfterTakeoff(service.approvals, flights, used, rid, f);
  }

  /** A request that is under way changes its state. */
  lemma RefitKeeps(cfg: Config, service: Outbox.State, flights: map<Uuid, Flight>, used: set<Uuid>, tr: Trace,
                   rid: Uuid, f: Flight)
    requires Inv(cfg, service, flights, used, tr) && rid in flights && FlightOk(cfg, tr, rid, f)
    ensures Inv(cfg, service, flights[rid := f], used, tr)
  {
    FlightsAfter(cfg, tr, flights, used, rid, f);
    OverAfterTakeoff(service.approvals, flights, used, rid, f);
  }

  lemma UseKeeps(cfg: Config, service: Outbox.State, flights: map<Uuid, Flight>, used: set<Uuid>, tr: Trace, rid: Uuid)
    requires Inv(cfg, service, flights, used, tr)
    ensures Inv(cfg, service, flights, used + {rid}, tr)
  {
  }

  lemma LandKeeps(cfg: Config, service: Outbox.State, flights: map<Uuid, Flight>, used: set<Uuid>, tr: Trace, rid: Uuid)
    requires Inv(cfg, service, flights, used, tr)
    ensures Inv(cfg, service, flights - {rid}, used, tr)
  {
  }

  /** Operations of the approval service that neither add an approval nor decide one. */
  lemma ServiceKeeps(cfg: Config, service: Outbox.State, flights: map<Uuid, Flight>, used: set<Uuid>, tr: Trace,
                     after: Outbox.State)
    requires Inv(cfg, service, flights, used, tr)
    requires Delivery.Inv(cfg.hooks, after) && Delivery.Evolves(service, after)
             && Delivery.SameDecisions(service, after)
    ensures Inv(cfg, after, flights, used, tr)
  {
    forall aid | aid in after.approvals
      ensures StoredFor(after.approvals[aid]) in tr && LatestReview(tr, aid) == after.approvals[aid].review.approved
      ensures after.approvals[aid].subject.requestId in used && after.approvals[aid].subject.requestId !in flights
    {
      assert after.approvals[aid].subject == service.approvals[aid].subject;
    }
  }

  type Approvals = map<Uuid, Outbox.ApprovalRow>

  lemma OverStays(before: Approvals, after: Approvals, flights: map<Uuid, Flight>, used: set<Uuid>)
    requires RequestsOver(before, flights, used) && after.Keys == before.Keys
    requires forall x | x in after :: after[x].subject == before[x].subject
    ensures RequestsOver(after, flights, used)
  {
  }

  lemma TableAfterReview(tr: Trace, before: Approvals, after: Approvals, aid: Uuid, approved: bool)
    requires TableOk(tr, before) && aid in before && after.Keys == before.Keys
    requires forall x | x in after :: after[x].subject == before[x].subject
               && after[x].review.approved == if x == aid then Some(approved) else before[x].review.approved
    ensures TableOk(tr + [Reviewed(aid, approved)], after)
  {
    var h := Reviewed(aid, approved);
    forall x | x in after
      ensures StoredFor(after[x]) in tr + [h] && LatestReview(tr + [h], x) == after[x].review.approved
    {
      assert x in before && StoredFor(before[x]) in tr;
      ReviewGrows(tr, h, x);
    }
  }

  lemma ReviewKeeps(cfg: Config, w: World, aid: Uuid, approved: bool, approver: string, comment: Option<string>,
                    env: Env)
    requires WorldInv(cfg, w)
    ensures WorldInv(cfg, Review(cfg, w, aid, approved, approver, comment, env))
  {
    var t := Outbox.Decide(cfg.hooks, cfg.net, w.service, aid, approved, approver, comment, env.now);
    if aid in w.service.approvals {
      var h := Reviewed(aid, approved);
      assert Delivery.Inv(cfg.hooks, t) by {
        Delivery.DecideOk(cfg.hooks, cfg.net, w.service, aid, approved, approver, comment, env.now);
      }
      Delivery.DecideFrame(cfg.hooks, cfg.net, w.service, aid, approved, approver, comment, env.now);
      TraceGrows(cfg, w.trace, h);
      FlightsStay(cfg, w.trace, h, w.flights, w.used);
      TableAfterReview(w.trace, w.service.approvals, t.approvals, aid, approved);
      OverStays(w.service.approvals, t.approvals, w.flights, w.used);
    }
  }

  /** No decision is on record for an approval that does not exist. */
  lemma {:induction false} NoReview(tr: Trace, aid: Uuid)
    requires forall k | 0 <= k < |tr| && tr[k].Reviewed? :: tr[k].approvalId != aid
    ensures LatestReview(tr, aid) == None
    decreases |tr|
  {
    if tr == [] {
    } else {
      NoReview(tr[..|tr| - 1], aid);
    }
  }

  lemma TableAfterStore(tr: Trace, before: Approvals, after: Approvals, aid: Uuid)
    requires TableOk(tr, before) && aid !in before && after.Keys == before.Keys + {aid}
    requires after[aid].subject.id == aid && after[aid].review.approved == None
    requires forall x | x in before ::
               after[x].subject == before[x].subject && after[x].review.approved == before[x].review.approved
    ensures TableOk(tr + [StoredFor(after[aid])], after)
  {
    var h := StoredFor(after[aid]);
    NoReview(tr, aid);
    forall x | x in after
      ensures StoredFor(after[x]) in tr + [h] && LatestReview(tr + [h], x) == after[x].review.approved
    {
      ReviewGrows(tr, h, x);
      if x != aid {
        assert StoredFor(before[x]) in tr;
      }
    }
    assert aid in after;
  }

  /** A new approval may be stored for a request that was submitted. */
  lemma StoringIsOk(cfg: Config, service: Outbox.State, tr: Trace, aid: Uuid, n: Outbox.NewApproval, now: int)
    requires TableOk(tr, service.approvals) && aid !in service.approvals
    requires WasSubmitted(tr, n.requestId, n.agentId, n.tool, n.params)
    ensures HappeningOk(cfg, tr, StoredFor(Outbox.NewRow(cfg.hooks, aid, n, now)))
  {
  }

  lemma OverAfterStore(before: Approvals, after: Approvals, flights: map<Uuid, Flight>, used: set<Uuid>, aid: Uuid)
    requires RequestsOver(before, flights, used) && after.Keys == before.Keys + {aid}
    requires after[aid].subject.requestId in used && after[aid].subject.requestId !in flights
    requires forall x | x in before :: x != aid ==> after[x].subject == before[x].subject
    ensures RequestsOver(after, flights, used)
  {
    forall x | x in after ensures after[x].subject.requestId in used && after[x].subject.requestId !in flights {
      assert x == aid || x in before;
    }
  }

  /** Storing an approval for a request that is over. */
  lemma StoreKeeps(cfg: Config, service: Outbox.State, flights: map<Uuid, Flight>, used: set<Uuid>, tr: Trace,
                   aid: Uuid, n: Outbox.NewApproval, now: int)
    requires Inv(cfg, service, flights, used, tr) && aid !in service.approvals
             && !Outbox.KnownRequest(service, n.requestId)
    requires n.requestId in used && n.requestId !in flights
             && WasSubmitted(tr, n.requestId, n.agentId, n.tool, n.params)
    ensures var h := StoredFor(Outbox.NewRow(cfg.hooks, aid, n, now));
            Inv(cfg, Outbox.Create(cfg.hooks, cfg.net, service, aid, n, now), flights, used, tr + [h])
  {
    var (h, t) := (StoredFor(Outbox.NewRow(cfg.hooks, aid, n, now)),
                   Outbox.Create(cfg.hooks, cfg.net, service, aid, n, now));
    assert Delivery.Inv(cfg.hooks, t) by {
      Delivery.CreateOk(cfg.hooks, cfg.net, service, aid, n, now);
    }
    Delivery.CreateFrame(cfg.hooks, cfg.net, service, aid, n, now);
    assert StoredFor(t.approvals[aid]) == h;
    StoringIsOk(cfg, service, tr, aid, n, now);
    TraceGrows(cfg, tr, h);
    FlightsStay(cfg, tr, h, flights, used);
    TableAfterStore(tr, service.approvals, t.approvals, aid);
    OverAfterStore(service.approvals, t.approvals, flights, used, aid);
  }

  // ---------- the steps ----------

  lemma RespondKeeps(cfg: Config, w: World, rid: Uuid, d: Decision)
    requires WorldInv(cfg, w)
    ensures WorldInv(cfg, Respond(w, rid, d))
  {
    LandKeeps(cfg, w.service, w.flights, w.used, w.trace, rid);
    NoteKeeps(cfg, w.service, w.flights - {rid}, w.used, w.trace, Responded(rid, d));
  }

  lemma SubmitKeeps(cfg: Config, w: World, rid: Uuid, req: Request, historyOk: bool)
    requires Capability.WellFormed(cfg.registry) && WorldInv(cfg, w) && rid !in w.used
    ensures WorldInv(cfg, Submit(cfg, w, rid, req, historyOk))
  {
    var verdict := Capability.ToolVerdict(cfg.registry, req.agent, req.tool, req.params, cfg.host);
    var h := Submitted(rid, req.agent.id, req.tool, req.params, verdict == Capability.Permit);
    assert h.passed ==> Permitted(cfg, req.agent.id, req.tool, req.params);
    NoteKeeps(cfg, w.service, w.flights, w.used, w.trace, h);
    match verdict
    case Permit =>
      var history: History := if historyOk then Some(w.audit) else None;
      var risk := Assess(cfg.profiles, cfg.risk, req, history);
      assert Vetted(cfg, req, risk.level);
      FlyKeeps(cfg, w.service, w.flights, w.used, w.trace + [h], rid, AwaitPolicy(req, risk));
    case Refuse =>
      UseKeeps(cfg, w.service, w.flights, w.used, w.trace + [h], rid);
      RespondKeeps(cfg, Note(w.(used := w.used + {rid}), h), rid, Deny);
    case Raises =>
      UseKeeps(cfg, w.service, w.flights, w.used, w.trace + [h], rid);
  }

  lemma CloseKeeps(cfg: Config, w: World, rid: Uuid, f: Flight, policy: Evaluation, final: Decision,
                   error: Option<string>, env: Env)
    requires WorldInv(cfg, w) && f.AwaitPolicy?
    ensures WorldInv(cfg, Close(cfg, w, rid, f, policy, final, error, env))
  {
    var e := EntryFor(f.req, rid, f.risk, policy, final, None, error, env.ms, None, None, None);
    RespondKeeps(cfg, Log(cfg, w, e, env), rid, final);
  }

  /** A tool may be started for a waiting request if it is neither gated nor denied by the policy, or if the
      settings let gated tools run unattended. */
  lemma RunToolKeeps(cfg: Config, w: World, rid: Uuid, f: Flight, policy: Evaluation, final: Decision,
                     quota: Option<RateLimit.Quota>, counted: Option<RateLimit.Event>, posture: bool, now: int)
    requires WorldInv(cfg, w) && rid in w.flights && w.flights[rid] == f && f.AwaitPolicy?
    requires CanDecide(cfg, f.req, f.risk.level, policy.decision)
    requires f.req.tool in GATED_TOOLS || policy.decision == Deny ==> Unattended(cfg, f.risk.level)
    ensures WorldInv(cfg, RunTool(w, rid, f, policy, final, quota, counted, posture, now))
  {
    assert FlightOk(cfg, w.trace, rid, f);
    var flights := w.flights[rid := Running(f.req, f.risk, policy, final, quota)];
    RefitKeeps(cfg, w.service, w.flights, w.used, w.trace, rid, Running(f.req, f.risk, policy, final, quota));
    if Dispatches(final, f.req.tool, posture) {
      NoteKeeps(cfg, w.service, flights, w.used, w.trace,
                RanFor(rid, f, policy, counted, now));
    }
  }

  /** A waiting request has no approval yet. */
  lemma WaitingIsUnknown(cfg: Config, w: World, rid: Uuid)
    requires WorldInv(cfg, w) && rid in w.flights
    ensures !Outbox.KnownRequest(w.service, rid) && rid in w.used
  {
  }

  lemma AskApprovalKeeps(cfg: Config, w: World, rid: Uuid, f: Flight, policy: Evaluation, error: string, aid: Uuid,
                         env: Env)
    requires WorldInv(cfg, w) && rid in w.flights && w.flights[rid] == f && f.AwaitPolicy?
             && aid !in w.service.approvals
    ensures WorldInv(cfg, AskApproval(cfg, w, rid, f, policy, error, aid, env))
  {
    var n := NewApprovalFor(rid, f);
    assert FlightOk(cfg, w.trace, rid, f);
    WaitingIsUnknown(cfg, w, rid);
    LandKeeps(cfg, w.service, w.flights, w.used, w.trace, rid);
    StoreKeeps(cfg, w.service, w.flights - {rid}, w.used, w.trace, aid, n, env.now);
    var s := Outbox.Create(cfg.hooks, cfg.net, w.service, aid, n, env.now);
    var h := StoredEvent(cfg, rid, f, aid, env.now);
    assert h == StoredFor(Outbox.NewRow(cfg.hooks, aid, n, env.now));
    NoteKeeps(cfg, s, w.flights - {rid}, w.used, w.trace + [h], Responded(rid, ApprovalRequired));
  }

  lemma JudgeKeeps(cfg: Config, w: World, rid: Uuid, reply: Reply, aid: Uuid, posture: bool, env: Env)
    requires WorldInv(cfg, w) && rid in w.flights && w.flights[rid].AwaitPolicy? && aid !in w.service.approvals
    ensures WorldInv(cfg, Judge(cfg, w, rid, reply, aid, posture, env))
  {
    var f := w.flights[rid];
    var policy := PolicyOf(cfg, f, reply);
    var (w1, q) := Limited(cfg, w, f.req, env.now);
    var counted := CountedAs(cfg, w, f.req, env.now);
    assert WorldInv(cfg, w1);
    assert CanDecide(cfg, f.req, f.risk.level, policy.decision);
    if Blocked(q) {
      if cfg.mode == "approval_required" {
        AskApprovalKeeps(cfg, w1, rid, f, policy, QuotaMessage(q.value), aid, env);
      } else if cfg.mode == "sandbox" {
        RunToolKeeps(cfg, w1, rid, f, policy, Sandbox, Some(q.value), counted, posture, env.now);
      } else {
        CloseKeeps(cfg, w1, rid, f, policy, Quarantine, Some(QuotaMessage(q.value)), env);
      }
    } else {
      ProceedKeeps(cfg, w1, rid, f, policy, counted, aid, posture, env);
    }
  }

  lemma ProceedKeeps(cfg: Config, w: World, rid: Uuid, f: Flight, policy: Evaluation, counted: Option<RateLimit.Event>,
                     aid: Uuid, posture: bool, env: Env)
    requires WorldInv(cfg, w) && rid in w.flights && w.flights[rid] == f && f.AwaitPolicy?
             && aid !in w.service.approvals
    requires CanDecide(cfg, f.req, f.risk.level, policy.decision)
    ensures WorldInv(cfg, Proceed(cfg, w, rid, f, policy, counted, aid, posture, env))
  {
    var final := FinalDecision(f.req.tool, policy.decision, f.risk.level, cfg.sandboxType);
    GatedNeedApproval(f.req.tool, policy.decision, f.risk.level, cfg.sandboxType);
    match final
    case ApprovalRequired =>
      if cfg.autoApprove && f.risk.level == Low {
        RunToolKeeps(cfg, w, rid, f, policy, Allow, None, counted, posture, env.now);
      } else {
        AskApprovalKeeps(cfg, w, rid, f, policy, "Approval required", aid, env);
      }
    case Allow => RunToolKeeps(cfg, w, rid, f, policy, Allow, None, counted, posture, env.now);
    case Sandbox => RunToolKeeps(cfg, w, rid, f, policy, Sandbox, None, counted, posture, env.now);
    case Deny => CloseKeeps(cfg, w, rid, f, policy, Deny, None, env);
    case Quarantine => CloseKeeps(cfg, w, rid, f, policy, Quarantine, None, env);
  }

  lemma FinishKeeps(cfg: Config, w: World, rid: Uuid, result: ToolResult, env: Env)
    requires WorldInv(cfg, w) && rid in w.flights && w.flights[rid].Running?
    ensures WorldInv(cfg, Finish(cfg, w, rid, result, env))
  {
    var f := w.flights[rid];
    var e := FinishEntry(f, rid, result, env.ms);
    RespondKeeps(cfg, Log(cfg, w, e, env), rid, f.final);
  }

  /** The check that lets a replay start is a good one. */
  lemma CheckIsGood(cfg: Config, w: World, rid: Uuid, aid: Uuid, now: int)
    requires WorldInv(cfg, w) && Replayable(w.service, aid, now)
    ensures var req := ReplayRequest(w.service.approvals[aid]);
            WasChecked(w.trace + [ReplayChecked(rid, aid, now)], rid, aid, req.agent.id, req.tool, req.params)
  {
    var (a, tr) := (w.service.approvals[aid], w.trace + [ReplayChecked(rid, aid, now)]);
    var c := |w.trace|;
    assert tr[..c] == w.trace;
    assert StoredFor(a) in w.trace;
    var k :| 0 <= k < |w.trace| && w.trace[k] == StoredFor(a);
    assert StoredAt(tr[..c], k, aid, a.subject.agentId, a.subject.tool, a.subject.params);
    assert GoodCheck(tr, c, rid, aid, a.subject.agentId, a.subject.tool, a.subject.params);
  }

  lemma ReplayStartKeeps(cfg: Config, w: World, rid: Uuid, aid: Uuid, historyOk: bool, env: Env)
    requires WorldInv(cfg, w) && rid !in w.used
    ensures WorldInv(cfg, ReplayStart(cfg, w, rid, aid, historyOk, env))
  {
    if Replayable(w.service, aid, env.now) {
      var a := w.service.approvals[aid];
      var req := ReplayRequest(a);
      var risk := Assess(cfg.profiles, cfg.risk, req, if historyOk then Some(w.audit) else None);
      var h := ReplayChecked(rid, aid, env.now);
      CheckIsGood(cfg, w, rid, aid, env.now);
      NoteKeeps(cfg, w.service, w.flights, w.used, w.trace, h);
      FlyKeeps(cfg, w.service, w.flights, w.used, w.trace + [h], rid,
               AwaitReplayPolicy(aid, req, risk, a.review.approverId));
    }
  }

  lemma RunReplayKeeps(cfg: Config, w: World, rid: Uuid, f: Flight, policy: Evaluation, posture: bool, now: int)
    requires WorldInv(cfg, w) && rid in w.flights && w.flights[rid] == f && f.AwaitReplayPolicy?
    ensures WorldInv(cfg, RunReplay(w, rid, f, policy, posture, now))
  {
    assert WasChecked(w.trace, rid, f.approvalId, f.req.agent.id, f.req.tool, f.req.params) by {
      assert FlightOk(cfg, w.trace, rid, f);
    }
    var g := RunningReplay(f.approvalId, f.req, f.risk, policy, f.approver);
    var flights := w.flights[rid := g];
    RefitKeeps(cfg, w.service, w.flights, w.used, w.trace, rid, g);
    if Dispatches(ForcedDecision(f.req.tool), f.req.tool, posture) {
      NoteKeeps(cfg, w.service, flights, w.used, w.trace,
                RanAgain(rid, f, policy, now));
    }
  }

  lemma ReplayFinishKeeps(cfg: Config, w: World, rid: Uuid, result: ToolResult, env: Env)
    requires WorldInv(cfg, w) && rid in w.flights && w.flights[rid].RunningReplay?
    ensures WorldInv(cfg, ReplayFinish(cfg, w, rid, result, env))
  {
    var f := w.flights[rid];
    var e := ReplayEntry(f, rid, result, env.ms);
    NoteKeeps(cfg, w.service, w.flights, w.used, w.trace, ReplayDone(rid));
    RespondKeeps(cfg, Note(Log(cfg, w, e, env), ReplayDone(rid)), rid, Allow);
  }

  lemma RetryHookKeeps(cfg: Config, w: World, aid: Uuid, env: Env)
    requires WorldInv(cfg, w)
    ensures WorldInv(cfg, RetryHook(cfg, w, aid, env))
  {
    var t := Outbox.Retry(cfg.hooks, cfg.net, w.service, aid, env.now);
    Delivery.RetryOk(cfg.hooks, cfg.net, w.service, aid, env.now);
    ServiceKeeps(cfg, w.service, w.flights, w.used, w.trace, t);
    if aid in w.service.approvals {
      NoteKeeps(cfg, t, w.flights, w.used, w.trace, Retried(aid));
    }
  }

  lemma StepKeeps(cfg: Config, w: World, step: Step, env: Env)
    requires Capability.WellFormed(cfg.registry) && WorldInv(cfg, w) && Enabled(w, step)
    ensures WorldInv(cfg, Next(cfg, w, step, env))
  {
    match step
    case DoSubmit(rid, req, historyOk) => SubmitKeeps(cfg, w, rid, req, historyOk);
    case DoJudge(rid, reply, aid, posture) => JudgeKeeps(cfg, w, rid, reply, aid, posture, env);
    case DoFinish(rid, result) => FinishKeeps(cfg, w, rid, result, env);
    case DoReplayStart(rid, aid, historyOk) => ReplayStartKeeps(cfg, w, rid, aid, historyOk, env);
    case DoReplayRun(rid, reply, posture) =>
      RunReplayKeeps(cfg, w, rid, w.flights[rid], PolicyOf(cfg, w.flights[rid], reply), posture, env.now);
    case DoReplayFinish(rid, result) => ReplayFinishKeeps(cfg, w, rid, result, env);
    case DoReview(aid, approved, approver, comment) => ReviewKeeps(cfg, w, aid, approved, approver, comment, env);
    case DoRetry(aid) => RetryHookKeeps(cfg, w, aid, env);
    case DoDrain(limit) =>
      Delivery.DrainOk(cfg.hooks, cfg.net, w.service, limit, env.now);
      ServiceKeeps(cfg, w.service, w.flights, w.used, w.trace,
                   Outbox.Drain(cfg.hooks, cfg.net, w.service, limit, env.now).0);
  }

  lemma {:induction false} RunKeeps(cfg: Config, worlds: seq<World>, steps: seq<(Step, Env)>, k: nat)
    requires IsRun(cfg, worlds, steps) && k <= |steps|
    ensures WorldInv(cfg, worlds[k])
  {
    if k == 0 {
    } else {
      RunKeeps(cfg, worlds, steps, k - 1);
      StepKeeps(cfg, worlds[k - 1], steps[k - 1].0, steps[k - 1].1);
    }
  }

  // ---------- the theorems ----------

  /** Every tool run, in every interleaving, either belongs to a request that passed the capability check
      with exactly this agent, tool and parameters and is neither gated nor denied by the policy (or runs
      under one of the two unattended settings), or is a replay that passed a good check. */
  lemma EveryRunJustified(cfg: Config, worlds: seq<World>, steps: seq<(Step, Env)>, n: nat, k: nat)
    requires IsRun(cfg, worlds, steps) && n <= |steps|
    requires k < |worlds[n].trace| && worlds[n].trace[k].Ran?
    ensures var (tr, h) := (worlds[n].trace, worlds[n].trace[k]);
            match h.via
            case ByRequest =>
              && WasSubmitted(tr[..k], h.rid, h.agent, h.tool, h.params)
              && RunOk(cfg, h.agent, h.tool, h.params, h.level, h.policy)
            case ByReplay(aid) => WasChecked(tr[..k], h.rid, aid, h.agent, h.tool, h.params)
  {
    RunKeeps(cfg, worlds, steps, n);
    assert HappeningOk(cfg, worlds[n].trace[..k], worlds[n].trace[k]);
  }

  lemma StoredTwice(cfg: Config, tr: Trace, i: nat, j: nat)
    requires TraceOk(cfg, tr) && i < j < |tr| && tr[i].ApprovalStored? && tr[j].ApprovalStored?
    ensures tr[i].approvalId != tr[j].approvalId
  {
    assert HappeningOk(cfg, tr[..j], tr[j]);
    assert tr[..j][i] == tr[i];
  }

  /** Happenings s < a < c account for the replay at k: agent, tool and parameters were submitted and
      passed the capability check at s, the approval was stored for them at a, and at c its latest
      decision was to approve and the expiry period since a was not over. No other happening stores that approval. */
  ghost predicate Accounted(cfg: Config, tr: Trace, s: nat, a: nat, c: nat, k: nat) {
    && s < a < c < k < |tr| && tr[k].Ran? && tr[k].via.ByReplay?
    && tr[c].ReplayChecked? && tr[c].rid == tr[k].rid && tr[c].approvalId == tr[k].via.approvalId
    && LatestReview(tr[..c], tr[c].approvalId) == Some(true)
    && tr[a].ApprovalStored? && tr[a].approvalId == tr[c].approvalId
    && (cfg.hooks.expireMinutes > 0 ==> tr[c].now < tr[a].at + 60 * cfg.hooks.expireMinutes)
    && tr[s] == Submitted(tr[a].rid, tr[k].agent, tr[k].tool, tr[k].params, true)
    && (forall j | 0 <= j < |tr| && tr[j].ApprovalStored? && tr[j].approvalId == tr[a].approvalId :: j == a)
  }

  lemma ReplayIsAccounted(cfg: Config, tr: Trace, k: nat) returns (s: nat, a: nat, c: nat)
    requires TraceOk(cfg, tr) && k < |tr| && tr[k].Ran? && tr[k].via.ByReplay?
    ensures Accounted(cfg, tr, s, a, c, k)
  {
    var run := tr[k];
    assert HappeningOk(cfg, tr[..k], run);
    c :| GoodCheck(tr[..k], c, run.rid, run.via.approvalId, run.agent, run.tool, run.params);
    assert tr[..k][..c] == tr[..c];
    a :| StoredAt(tr[..c], a, run.via.approvalId, run.agent, run.tool, run.params)
         && (tr[a].expiresAt.Some? ==> tr[a].expiresAt.value > tr[c].now);
    assert HappeningOk(cfg, tr[..a], tr[a]);
    s :| 0 <= s < a && tr[..a][s] == Submitted(tr[a].rid, run.agent, run.tool, run.params, true);
    forall j | 0 <= j < |tr| && j != a && tr[j].ApprovalStored? ensures tr[j].approvalId != tr[a].approvalId {
      StoredTwice(cfg, tr, if j < a then j else a, if j < a then a else j);
    }
  }

  /** History safety. With auto-approval off and the enforcement mode not sandbox, a gated tool runs only
      as a replay that is accounted for. */
  lemma HistorySafety(cfg: Config, worlds: seq<World>, steps: seq<(Step, Env)>, n: nat, k: nat)
    returns (s: nat, a: nat, c: nat)
    requires IsRun(cfg, worlds, steps) && n <= |steps|
    requires !cfg.autoApprove && cfg.mode != "sandbox"
    requires k < |worlds[n].trace| && worlds[n].trace[k].Ran? && worlds[n].trace[k].tool in GATED_TOOLS
    ensures Accounted(cfg, worlds[n].trace, s, a, c, k)
  {
    RunKeeps(cfg, worlds, steps, n);
    EveryRunJustified(cfg, worlds, steps, n, k);
    s, a, c := ReplayIsAccounted(cfg, worlds[n].trace, k);
  }

  lemma DestructiveIsReplay(cfg: Config, tr: Trace, k: nat)
    requires cfg.mode != "sandbox" && cfg.profiles == SHIPPED_PROFILES && cfg.risk == DEFAULT_CONFIG
    requires TraceOk(cfg, tr) && k < |tr| && tr[k].Ran? && tr[k].tool in {"exec", "delete_file"}
    ensures tr[k].via.ByReplay?
  {
    forall req: Request, h: History | req.tool in {"exec", "delete_file"}
      ensures Assess(SHIPPED_PROFILES, DEFAULT_CONFIG, req, h).level != Low
    {
      LevelsByTool(req, h);
    }
    assert HappeningOk(cfg, tr[..k], tr[k]);
  }

  /** Even with auto-approval on, exec and delete_file run only as replays that are accounted for: with
      the shipped profiles and the default thresholds they are never LOW. */
  lemma DestructiveToolsNeedHuman(cfg: Config, worlds: seq<World>, steps: seq<(Step, Env)>, n: nat, k: nat)
    returns (s: nat, a: nat, c: nat)
    requires IsRun(cfg, worlds, steps) && n <= |steps|
    requires cfg.mode != "sandbox" && cfg.profiles == SHIPPED_PROFILES && cfg.risk == DEFAULT_CONFIG
    requires k < |worlds[n].trace| && worlds[n].trace[k].Ran? && worlds[n].trace[k].tool in {"exec", "delete_file"}
    ensures Accounted(cfg, worlds[n].trace, s, a, c, k)
  {
    RunKeeps(cfg, worlds, steps, n);
    DestructiveIsReplay(cfg, worlds[n].trace, k);
    s, a, c := ReplayIsAccounted(cfg, worlds[n].trace, k);
  }
}
