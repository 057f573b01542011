/** The kernel as a state machine. A request is cut at the points where the kernel waits (for the policy
    server, for a tool), so requests, replays, human decisions and drains interleave; between two
    waiting points a step is atomic. Network, policy server, sandbox posture, tool results and database
    commits are inputs of the steps.

    The trace records what happened, in order; it is what history properties are stated about. */
module KernelSpec {
  import opened Base
  import opened Risk
  import opened Policy
  import AuditChain
  import RateLimit
  import Outbox
  import Capability

  datatype Config = Config(
    H: AuditChain.Hash, registry: Capability.Registry, host: string -> string,
    profiles: map<string, Profile>, risk: RiskConfig,
    opa: bool, availability: string, sandboxType: string,
    anomaly: bool, limits: RateLimit.Limits, mode: string, autoApprove: bool,
    hooks: Outbox.HookConfig, net: Outbox.Net)

  // ---------- what happens ----------

  datatype Via = ByRequest | ByReplay(approvalId: Uuid)

  datatype Happening =
    | Submitted(rid: Uuid, agent: string, tool: string, params: Params, passed: bool)
    | ApprovalStored(approvalId: Uuid, rid: Uuid, agent: string, tool: string, params: Params, at: int,
                     expiresAt: Option<int>)
    | Reviewed(approvalId: Uuid, approved: bool)
    | Retried(approvalId: Uuid)
    | ReplayChecked(rid: Uuid, approvalId: Uuid, now: int)
    | Ran(rid: Uuid, agent: string, tool: string, params: Params, via: Via, level: RiskLevel, policy: Decision,
          counted: Option<RateLimit.Event>, at: int)
    | ReplayDone(rid: Uuid)
    | Responded(rid: Uuid, decision: Decision)

  // ---------- requests under way ----------

  /** A request that is waiting: process for the policy server or for its tool, and a replay likewise.
      quota is set while a tool runs because the rate limit sent it to the sandbox. */
  datatype Flight =
    | AwaitPolicy(req: Request, risk: Assessment)
    | Running(req: Request, risk: Assessment, policy: Evaluation, final: Decision, quota: Option<RateLimit.Quota>)
    | AwaitReplayPolicy(approvalId: Uuid, req: Request, risk: Assessment, approver: Option<string>)
    | RunningReplay(approvalId: Uuid, req: Request, risk: Assessment, policy: Evaluation, approver: Option<string>)

  datatype World = World(
    audit: seq<AuditChain.Row>, limiter: RateLimit.State, service: Outbox.State,
    flights: map<Uuid, Flight>, used: set<Uuid>, trace: seq<Happening>)

  const START := World([], RateLimit.INITIAL, Outbox.EMPTY, map[], {}, [])

  /** What the outside contributes to a step: the reading of the clock, which may go back or stand still,
      whether an audit commit succeeds, the duration to record, and the place of a new audit row among
      those with the same stamp. */
  datatype Env = Env(now: int, commits: bool, ms: int, tie: nat)

  /** What a tool run returns. */
  datatype ToolResult = ToolResult(success: bool, error: Option<string>, sandboxId: Option<string>, dump: Json)

  // ---------- the broker ----------

  /** Does the broker hand the call to an adapter? A sandboxed call first has to pass the posture check. */
  predicate Dispatches(decision: Decision, tool: string, posture: bool) {
    match decision
    case Deny => false
    case Quarantine => false
    case ApprovalRequired => false
    case Sandbox => posture && tool in BROKER_TOOLS
    case Allow => tool in BROKER_TOOLS
  }

  // ---------- audit entries ----------

  function Digits(n: nat): string {
    if n < 10 then ["0123456789"[n]] else Digits(n / 10) + ["0123456789"[n % 10]]
  }

  function IntText(n: int): string {
    if n < 0 then "-" + Digits(-n) else Digits(n)
  }

  function ScopeText(s: RateLimit.Scope): string {
    match s
    case ByDefault => "default"
    case ByTenant => "tenant"
    case ByTool => "tool"
  }

  function QuotaMessage(q: RateLimit.Quota): string {
    "Rate limit exceeded (" + ScopeText(q.scope) + " threshold " + IntText(q.threshold) + ", agent_count="
    + IntText(q.agentCount) + ", tool_count=" + IntText(q.toolCount) + ")"
  }

  function EntryFor(req: Request, rid: Uuid, risk: Assessment, policy: Evaluation, final: Decision,
                    result: Option<ToolResult>,
                    error: Option<string>, ms: int, approvalId: Option<Uuid>, approver: Option<string>,
                    replayedFrom: Option<Uuid>): AuditChain.Entry
  {
    AuditChain.Entry(req, rid, risk.score, risk.level, policy.decision, final,
                     if result.Some? then Some(result.value.dump) else None, error,
                     if result.Some? then result.value.sandboxId else None, ms, approvalId, approver, replayedFrom)
  }

  /** _log_audit */
  function Log(cfg: Config, w: World, e: AuditChain.Entry, env: Env): World {
    if env.commits then w.(audit := AuditChain.Logged(cfg.H, w.audit, e, env.now, env.tie)) else w
  }

  function Note(w: World, h: Happening): World {
    w.(trace := w.trace + [h])
  }

  /** The request ends and its caller gets an answer. */
  function Respond(w: World, rid: Uuid, d: Decision): World {
    Note(w.(flights := w.flights - {rid}), Responded(rid, d))
  }

  // ---------- submitting ----------

  /** process up to the policy call: capability check and risk. A refusal is answered and not audited; a
      malformed parameter raises. historyOk says whether the audit lookback could be read. */
  function Submit(cfg: Config, w: World, rid: Uuid, req: Request, historyOk: bool): World
    requires Capability.WellFormed(cfg.registry)
  {
    var verdict := Capability.ToolVerdict(cfg.registry, req.agent, req.tool, req.params, cfg.host);
    var w1 := Note(w.(used := w.used + {rid}),
                   Submitted(rid, req.agent.id, req.tool, req.params, verdict == Capability.Permit));
    match verdict
    case Permit =>
      var risk := Assess(cfg.profiles, cfg.risk, req, if historyOk then Some(w.audit) else None);
      w1.(flights := w1.flights[rid := AwaitPolicy(req, risk)])
    case Refuse => Respond(w1, rid, Deny)
    case Raises => w1
  }

  // ---------- deciding ----------

  function NewApprovalFor(rid: Uuid, f: Flight): Outbox.NewApproval
    requires f.AwaitPolicy?
  {
    Outbox.NewApproval(rid, f.req.agent.id, f.req.tool, f.req.params, f.risk.score, f.risk.level)
  }

  function StoredEvent(cfg: Config, rid: Uuid, f: Flight, aid: Uuid, now: int): Happening
    requires f.AwaitPolicy?
  {
    ApprovalStored(aid, rid, f.req.agent.id, f.req.tool, f.req.params, now,
                   Outbox.NewRow(cfg.hooks, aid, NewApprovalFor(rid, f), now).subject.expiresAt)
  }

  /** A request for approval is stored, audited and answered. */
  function AskApproval(cfg: Config, w: World, rid: Uuid, f: Flight, policy: Evaluation, error: string, aid: Uuid,
                       env: Env): World
    requires f.AwaitPolicy?
  {
    var w1 := Note(w.(service := Outbox.Create(cfg.hooks, cfg.net, w.service, aid, NewApprovalFor(rid, f), env.now)),
                   StoredEvent(cfg, rid, f, aid, env.now));
    var e := EntryFor(f.req, rid, f.risk, policy, ApprovalRequired, None, Some(error), env.ms, Some(aid), None, None);
    Respond(Log(cfg, w1, e, env), rid, ApprovalRequired)
  }

  /** A request that is not executed is audited and answered. */
  function Close(cfg: Config, w: World, rid: Uuid, f: Flight, policy: Evaluation, final: Decision,
                 error: Option<string>, env: Env): World
    requires f.AwaitPolicy?
  {
    var e := EntryFor(f.req, rid, f.risk, policy, final, None, error, env.ms, None, None, None);
    Respond(Log(cfg, w, e, env), rid, final)
  }

  function RanFor(rid: Uuid, f: Flight, policy: Evaluation, counted: Option<RateLimit.Event>, now: int): Happening
    requires f.AwaitPolicy?
  {
    Ran(rid, f.req.agent.id, f.req.tool, f.req.params, ByRequest, f.risk.level, policy.decision, counted, now)
  }

  /** The tool is started through the broker. */
  function RunTool(w: World, rid: Uuid, f: Flight, policy: Evaluation, final: Decision, quota: Option<RateLimit.Quota>,
                   counted: Option<RateLimit.Event>, posture: bool, now: int): World
    requires f.AwaitPolicy?
  {
    var w1 := w.(flights := w.flights[rid := Running(f.req, f.risk, policy, final, quota)]);
    if Dispatches(final, f.req.tool, posture) then
      Note(w1, RanFor(rid, f, policy, counted, now))
    else w1
  }

  function QuotaEvent(w: World, req: Request, now: int): RateLimit.Event {
    RateLimit.Event(w.limiter.next, req.agent.id, req.agent.tenant, req.tool, "action", now)
  }

  /** The event that the action is recorded as, if it is. */
  function CountedAs(cfg: Config, w: World, req: Request, now: int): Option<RateLimit.Event> {
    if cfg.anomaly then Some(QuotaEvent(w, req, now)) else None
  }

  /** _rate_limit_exceeded: the action is recorded and counted, unless anomaly detection is off. */
  function Limited(cfg: Config, w: World, req: Request, now: int): (World, Option<RateLimit.Quota>) {
    if !cfg.anomaly then (w, None)
    else
      var s := RateLimit.RecordThenCount(cfg.limits, w.limiter, req.agent.id, req.agent.tenant, req.tool, now);
      (w.(limiter := s), Some(s.results[QuotaEvent(w, req, now)]))
  }

  predicate Blocked(q: Option<RateLimit.Quota>) {
    q.Some? && q.value.blocked
  }

  function PolicyOf(cfg: Config, f: Flight, reply: Reply): Evaluation {
    Evaluate(f.req, f.risk.level, cfg.opa, cfg.availability, reply)
  }

  /** What happens to a request that the rate limit stopped. */
  function Throttle(cfg: Config, w: World, rid: Uuid, f: Flight, policy: Evaluation, q: RateLimit.Quota,
                    counted: Option<RateLimit.Event>, aid: Uuid, posture: bool, env: Env): World
    requires f.AwaitPolicy?
  {
    if cfg.mode == "approval_required" then AskApproval(cfg, w, rid, f, policy, QuotaMessage(q), aid, env)
    else if cfg.mode == "sandbox" then RunTool(w, rid, f, policy, Sandbox, Some(q), counted, posture, env.now)
    else Close(cfg, w, rid, f, policy, Quarantine, Some(QuotaMessage(q)), env)
  }

  /** What happens to any other request. */
  function Proceed(cfg: Config, w: World, rid: Uuid, f: Flight, policy: Evaluation, counted: Option<RateLimit.Event>,
                   aid: Uuid, posture: bool, env: Env): World
    requires f.AwaitPolicy?
  {
    match FinalDecision(f.req.tool, policy.decision, f.risk.level, cfg.sandboxType)
    case ApprovalRequired =>
      if cfg.autoApprove && f.risk.level == Low then RunTool(w, rid, f, policy, Allow, None, counted, posture, env.now)
      else AskApproval(cfg, w, rid, f, policy, "Approval required", aid, env)
    case Allow => RunTool(w, rid, f, policy, Allow, None, counted, posture, env.now)
    case Sandbox => RunTool(w, rid, f, policy, Sandbox, None, counted, posture, env.now)
    case Deny => Close(cfg, w, rid, f, policy, Deny, None, env)
    case Quarantine => Close(cfg, w, rid, f, policy, Quarantine, None, env)
  }

  /** process from the policy answer to its end or to the tool call. */
  function Judge(cfg: Config, w: World, rid: Uuid, reply: Reply, aid: Uuid, posture: bool, env: Env): World
    requires rid in w.flights && w.flights[rid].AwaitPolicy?
  {
    var f := w.flights[rid];
    var policy := PolicyOf(cfg, f, reply);
    var (w1, q) := Limited(cfg, w, f.req, env.now);
    var counted := CountedAs(cfg, w, f.req, env.now);
    if Blocked(q) then Throttle(cfg, w1, rid, f, policy, q.value, counted, aid, posture, env)
    else Proceed(cfg, w1, rid, f, policy, counted, aid, posture, env)
  }

  function FinishEntry(f: Flight, rid: Uuid, result: ToolResult, ms: int): AuditChain.Entry
    requires f.Running?
  {
    var error :=
      if result.success then None
      else if f.quota.Some? then Some(QuotaMessage(f.quota.value))
      else result.error;
    EntryFor(f.req, rid, f.risk, f.policy, f.final, Some(result), error, ms, None, None, None)
  }

  /** process from the tool result to the answer. */
  function Finish(cfg: Config, w: World, rid: Uuid, result: ToolResult, env: Env): World
    requires rid in w.flights && w.flights[rid].Running?
  {
    var f := w.flights[rid];
    Respond(Log(cfg, w, FinishEntry(f, rid, result, env.ms), env), rid, f.final)
  }

  // ---------- replaying ----------

  predicate Replayable(s: Outbox.State, aid: Uuid, now: int) {
    && aid in s.approvals
    && s.approvals[aid].review.approved == Some(true)
    && (s.approvals[aid].subject.expiresAt.Some? ==> s.approvals[aid].subject.expiresAt.value > now)
  }

  function ReplayRequest(a: Outbox.ApprovalRow): Request {
    Request(Agent(a.subject.agentId, None, None, 0.8), a.subject.tool, a.subject.params,
            "{'approval_replay': True, 'approval_id': '" + a.subject.id.text + "'}", NO_AUTH)
  }

  /** replay_approved up to the policy call; anything not replayable raises. */
  function ReplayStart(cfg: Config, w: World, rid: Uuid, aid: Uuid, historyOk: bool, env: Env): World {
    if !Replayable(w.service, aid, env.now) then w
    else
      var a := w.service.approvals[aid];
      var req := ReplayRequest(a);
      var risk := Assess(cfg.profiles, cfg.risk, req, if historyOk then Some(w.audit) else None);
      Note(w.(used := w.used + {rid},
              flights := w.flights[rid := AwaitReplayPolicy(aid, req, risk, a.review.approverId)]),
           ReplayChecked(rid, aid, env.now))
  }

  function ForcedDecision(tool: string): Decision {
    if tool == "exec" then Sandbox else Allow
  }

  function RanAgain(rid: Uuid, f: Flight, policy: Evaluation, now: int): Happening
    requires f.AwaitReplayPolicy?
  {
    Ran(rid, f.req.agent.id, f.req.tool, f.req.params, ByReplay(f.approvalId), f.risk.level, policy.decision, None, now)
  }

  /** The broker is called for a replay with its forced decision. */
  function RunReplay(w: World, rid: Uuid, f: Flight, policy: Evaluation, posture: bool, now: int): World
    requires f.AwaitReplayPolicy?
  {
    var w1 := w.(flights := w.flights[rid := RunningReplay(f.approvalId, f.req, f.risk, policy, f.approver)]);
    if Dispatches(ForcedDecision(f.req.tool), f.req.tool, posture) then
      Note(w1, RanAgain(rid, f, policy, now))
    else w1
  }

  function ReplayRun(cfg: Config, w: World, rid: Uuid, reply: Reply, posture: bool, env: Env): World
    requires rid in w.flights && w.flights[rid].AwaitReplayPolicy?
  {
    RunReplay(w, rid, w.flights[rid], PolicyOf(cfg, w.flights[rid], reply), posture, env.now)
  }

  function ReplayEntry(f: Flight, rid: Uuid, result: ToolResult, ms: int): AuditChain.Entry
    requires f.RunningReplay?
  {
    EntryFor(f.req, rid, f.risk, f.policy, ForcedDecision(f.req.tool), Some(result),
             if result.success then None else result.error, ms, Some(f.approvalId), f.approver, Some(f.approvalId))
  }

  function ReplayFinish(cfg: Config, w: World, rid: Uuid, result: ToolResult, env: Env): World
    requires rid in w.flights && w.flights[rid].RunningReplay?
  {
    var f := w.flights[rid];
    Respond(Note(Log(cfg, w, ReplayEntry(f, rid, result, env.ms), env), ReplayDone(rid)), rid, Allow)
  }

  // ---------- approvals ----------

  function Review(cfg: Config, w: World, aid: Uuid, approved: bool, approver: string, comment: Option<string>,
                  env: Env): World {
    var w1 := w.(service := Outbox.Decide(cfg.hooks, cfg.net, w.service, aid, approved, approver, comment, env.now));
    if aid in w.service.approvals then Note(w1, Reviewed(aid, approved)) else w1
  }

  function RetryHook(cfg: Config, w: World, aid: Uuid, env: Env): World {
    var w1 := w.(service := Outbox.Retry(cfg.hooks, cfg.net, w.service, aid, env.now));
    if aid in w.service.approvals then Note(w1, Retried(aid)) else w1
  }

  // ---------- steps and runs ----------

  datatype Step =
    | DoSubmit(rid: Uuid, req: Request, historyOk: bool)
    | DoJudge(rid: Uuid, reply: Reply, aid: Uuid, posture: bool)
    | DoFinish(rid: Uuid, result: ToolResult)
    | DoReplayStart(rid: Uuid, aid: Uuid, historyOk: bool)
    | DoReplayRun(rid: Uuid, reply: Reply, posture: bool)
    | DoReplayFinish(rid: Uuid, result: ToolResult)
    | DoReview(aid: Uuid, approved: bool, approver: string, comment: Option<string>)
    | DoRetry(aid: Uuid)
    | DoDrain(limit: nat)

  /** Request and approval ids are fresh, and continuations belong to requests that wait for them. */
  predicate Enabled(w: World, step: Step) {
    match step
    case DoSubmit(rid, _, _) => rid !in w.used
    case DoJudge(rid, _, aid, _) => rid in w.flights && w.flights[rid].AwaitPolicy? && aid !in w.service.approvals
    case DoFinish(rid, _) => rid in w.flights && w.flights[rid].Running?
    case DoReplayStart(rid, _, _) => rid !in w.used
    case DoReplayRun(rid, _, _) => rid in w.flights && w.flights[rid].AwaitReplayPolicy?
    case DoReplayFinish(rid, _) => rid in w.flights && w.flights[rid].RunningReplay?
    case DoReview(_, _, _, _) => true
    case DoRetry(_) => true
    case DoDrain(_) => true
  }

  function Next(cfg: Config, w: World, step: Step, env: Env): World
    requires Capability.WellFormed(cfg.registry) && Enabled(w, step)
  {
    match step
    case DoSubmit(rid, req, historyOk) => Submit(cfg, w, rid, req, historyOk)
    case DoJudge(rid, reply, aid, posture) => Judge(cfg, w, rid, reply, aid, posture, env)
    case DoFinish(rid, result) => Finish(cfg, w, rid, result, env)
    case DoReplayStart(rid, aid, historyOk) => ReplayStart(cfg, w, rid, aid, historyOk, env)
    case DoReplayRun(rid, reply, posture) => ReplayRun(cfg, w, rid, reply, posture, env)
    case DoReplayFinish(rid, result) => ReplayFinish(cfg, w, rid, result, env)
    case DoReview(aid, approved, approver, comment) => Review(cfg, w, aid, approved, approver, comment, env)
    case DoRetry(aid) => RetryHook(cfg, w, aid, env)
    case DoDrain(limit) => w.(service := Outbox.Drain(cfg.hooks, cfg.net, w.service, limit, env.now).0)
  }

  ghost predicate IsRun(cfg: Config, worlds: seq<World>, steps: seq<(Step, Env)>) {
    && Capability.WellFormed(cfg.registry)
    && |worlds| == |steps| + 1
    && worlds[0] == START
    && forall k | 0 <= k < |steps| ::
         && Enabled(worlds[k], steps[k].0)
         && worlds[k + 1] == Next(cfg, worlds[k], steps[k].0, steps[k].1)
  }
}
