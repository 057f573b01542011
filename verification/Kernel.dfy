/** The kernel object: it owns the audit log, the rate limiter, the approval service, the capability manager
    and the risk engine, and each of its methods is one step of the state machine KernelSpec. */
module Kernel {
  import opened Base
  import opened Risk
  import opened Policy
  import opened KernelSpec
  import AuditChain
  import RateLimit
  import Outbox
  import Delivery
  import ApprovalService
  import Capability

  class ConstrailKernel {
    const cfg: Config
    const auditLog: AuditChain.AuditLog
    const limiter: RateLimit.RateLimitService
    const approvals: ApprovalService.Service
    const capability: Capability.CapabilityManager
    const engine: RiskEngine
    /** Requests that wait for the policy server or for a tool, and the ids used so far. */
    var flights: map<Uuid, Flight>
    var used: set<Uuid>
    ghost var trace: seq<Happening>

    ghost function Now(): World
      reads this, auditLog, limiter, approvals
    {
      World(auditLog.rows, limiter.Now(), approvals.Now(), flights, used, trace)
    }

    ghost predicate Valid()
      reads this, auditLog, limiter, approvals, capability
    {
      && auditLog.H == cfg.H && limiter.limits == cfg.limits
      && approvals.cfg == cfg.hooks && approvals.net == cfg.net
      && capability.registry == cfg.registry && capability.host == cfg.host && Capability.WellFormed(cfg.registry)
      && engine.profiles == cfg.profiles && engine.cfg == cfg.risk
      && AuditChain.InOrder(auditLog.rows)
      && limiter.Valid()
      && Delivery.Inv(cfg.hooks, approvals.Now())
    }

    constructor (cfg: Config, capability: Capability.CapabilityManager)
      requires capability.registry == cfg.registry && capability.host == cfg.host && Capability.WellFormed(cfg.registry)
      ensures this.cfg == cfg && this.capability == capability && Valid() && Now() == START
      ensures fresh(auditLog) && fresh(limiter) && fresh(approvals)
    {
      this.cfg, this.capability := cfg, capability;
      auditLog := new AuditChain.AuditLog(cfg.H);
      limiter := new RateLimit.RateLimitService(cfg.limits);
      approvals := new ApprovalService.Service(cfg.hooks, cfg.net);
      engine := new RiskEngine(cfg.profiles, cfg.risk);
      flights, used, trace := map[], {}, [];
    }

    // ---------- parts of a step ----------

    /** _log_audit */
    method LogAudit(e: AuditChain.Entry, env: Env)
      requires Valid()
      modifies auditLog
      ensures Valid() && Now() == Log(cfg, old(Now()), e, env)
    {
      auditLog.LogAudit(e, env.now, env.tie, env.commits);
    }

    method Answer(rid: Uuid, d: Decision)
      modifies this`flights, this`trace
      ensures Now() == Respond(old(Now()), rid, d)
    {
      flights := flights - {rid};
      trace := trace + [Responded(rid, d)];
    }

    /** The risk of a request against the audit log as it is, or without it if it cannot be read. */
    method AssessRisk(req: Request, historyOk: bool) returns (a: Assessment)
      requires Valid()
      ensures a == Assess(cfg.profiles, cfg.risk, req, if historyOk then Some(auditLog.rows) else None)
    {
      a := engine.AssessRequest(req, if historyOk then Some(auditLog.rows) else None);
    }

    /** _rate_limit_exceeded; None if anomaly detection is off. */
    method RateLimitExceeded(req: Request, now: int) returns (q: Option<RateLimit.Quota>)
      requires Valid()
      modifies limiter
      ensures Valid() && (Now(), q) == Limited(cfg, old(Now()), req, now)
    {
      if !cfg.anomaly {
        return None;
      }
      var result := limiter.RecordAndCheck(req.agent.id, req.agent.tenant, req.tool, now);
      q := Some(result);
    }

    method RequestApproval(rid: Uuid, f: Flight, policy: Evaluation, error: string, aid: Uuid, env: Env)
      requires Valid() && f.AwaitPolicy? && aid !in approvals.approvals
      modifies this`flights, this`trace, approvals, auditLog
      ensures Valid() && Now() == AskApproval(cfg, old(Now()), rid, f, policy, error, aid, env)
      ensures approvals.Now()
              == Outbox.Create(cfg.hooks, cfg.net, old(approvals.Now()), aid, NewApprovalFor(rid, f), env.now)
    {
      var _ := approvals.CreateRequest(aid, NewApprovalFor(rid, f), env.now);
      trace := trace + [StoredEvent(cfg, rid, f, aid, env.now)];
      LogAudit(EntryFor(f.req, rid, f.risk, policy, ApprovalRequired, None, Some(error), env.ms, Some(aid), None,
                        None), env);
      Answer(rid, ApprovalRequired);
    }

    method CloseRequest(rid: Uuid, f: Flight, policy: Evaluation, final: Decision, error: Option<string>, env: Env)
      requires Valid() && f.AwaitPolicy?
      modifies this`flights, this`trace, auditLog
      ensures Valid() && Now() == Close(cfg, old(Now()), rid, f, policy, final, error, env)
    {
      LogAudit(EntryFor(f.req, rid, f.risk, policy, final, None, error, env.ms, None, None, None), env);
      Answer(rid, final);
    }

    /** _execute_tool up to the adapter. */
    method StartTool(rid: Uuid, f: Flight, policy: Evaluation, final: Decision, quota: Option<RateLimit.Quota>,
                     ghost counted: Option<RateLimit.Event>, posture: bool, now: int)
      requires f.AwaitPolicy?
      modifies this`flights, this`trace
      ensures Now() == RunTool(old(Now()), rid, f, policy, final, quota, counted, posture, now)
    {
      flights := flights[rid := Running(f.req, f.risk, policy, final, quota)];
      if Dispatches(final, f.req.tool, posture) {
        trace := trace + [RanFor(rid, f, policy, counted, now)];
      }
    }

    // ---------- process ----------

    /** process up to its call of the policy engine. */
    method Process(rid: Uuid, req: Request, historyOk: bool, env: Env)
      requires Valid() && Enabled(Now(), DoSubmit(rid, req, historyOk))
      modifies this
      ensures Valid() && Now() == Submit(cfg, old(Now()), rid, req, historyOk)
    {
      used := used + {rid};
      var verdict := capability.IsToolAllowed(req.agent, req.tool, req.params);
      trace := trace + [Submitted(rid, req.agent.id, req.tool, req.params, verdict == Capability.Permit)];
      match verdict {
        case Permit =>
          var risk := AssessRisk(req, historyOk);
          flights := flights[rid := AwaitPolicy(req, risk)];
        case Refuse => Answer(rid, Deny);
        case Raises =>
      }
    }

    /** What process does with a request that the rate limit stopped. */
    method EnforceLimit(rid: Uuid, f: Flight, policy: Evaluation, quota: RateLimit.Quota,
                        ghost counted: Option<RateLimit.Event>, aid: Uuid, posture: bool, env: Env)
      requires Valid() && f.AwaitPolicy? && aid !in approvals.approvals
      modifies this`flights, this`trace, approvals, auditLog
      ensures Valid() && Now() == Throttle(cfg, old(Now()), rid, f, policy, quota, counted, aid, posture, env)
    {
      var error := QuotaMessage(quota);
      var final := Quarantine;
      if cfg.mode == "approval_required" {
        final := ApprovalRequired;
      } else if cfg.mode == "sandbox" {
        final := Sandbox;
      }
      if final == ApprovalRequired {
        RequestApproval(rid, f, policy, error, aid, env);
      } else if final == Sandbox {
        StartTool(rid, f, policy, final, Some(quota), counted, posture, env.now);
      } else {
        CloseRequest(rid, f, policy, final, Some(error), env);
      }
    }

    /** What process does with any other request. */
    method CarryOut(rid: Uuid, f: Flight, policy: Evaluation, ghost counted: Option<RateLimit.Event>, aid: Uuid,
                    posture: bool, env: Env)
      requires Valid() && f.AwaitPolicy? && aid !in approvals.approvals
      modifies this`flights, this`trace, approvals, auditLog
      ensures Valid() && Now() == Proceed(cfg, old(Now()), rid, f, policy, counted, aid, posture, env)
    {
      var final := FinalDecision(f.req.tool, policy.decision, f.risk.level, cfg.sandboxType);
      if final == ApprovalRequired {
        if cfg.autoApprove && f.risk.level == Low {
          final := Allow;
        } else {
          RequestApproval(rid, f, policy, "Approval required", aid, env);
          return;
        }
      }
      if final == Allow || final == Sandbox {
        StartTool(rid, f, policy, final, None, counted, posture, env.now);
      } else {
        CloseRequest(rid, f, policy, final, None, env);
      }
    }

    /** process from the policy engine's answer to its end or to the tool. */
    method ResumeProcess(rid: Uuid, reply: Reply, aid: Uuid, posture: bool, env: Env)
      requires Valid() && Enabled(Now(), DoJudge(rid, reply, aid, posture))
      modifies this, limiter, approvals, auditLog
      ensures Valid() && Now() == Judge(cfg, old(Now()), rid, reply, aid, posture, env)
    {
      var f := flights[rid];
      var policy := PolicyOf(cfg, f, reply);
      ghost var counted := CountedAs(cfg, Now(), f.req, env.now);
      var quota := RateLimitExceeded(f.req, env.now);
      if Blocked(quota) {
        EnforceLimit(rid, f, policy, quota.value, counted, aid, posture, env);
      } else {
        CarryOut(rid, f, policy, counted, aid, posture, env);
      }
    }

    /** process from the tool's result to its end. */
    method CompleteProcess(rid: Uuid, result: ToolResult, env: Env)
      requires Valid() && Enabled(Now(), DoFinish(rid, result))
      modifies this, auditLog
      ensures Valid() && Now() == Finish(cfg, old(Now()), rid, result, env)
    {
      var f := flights[rid];
      var error := None;
      if !result.success {
        error := if f.quota.Some? then Some(QuotaMessage(f.quota.value)) else result.error;
      }
      LogAudit(EntryFor(f.req, rid, f.risk, f.policy, f.final, Some(result), error, env.ms, None, None, None), env);
      Answer(rid, f.final);
    }

    // ---------- replay_approved ----------

    method MayReplay(aid: Uuid, now: int) returns (ok: bool)
      ensures ok == Replayable(approvals.Now(), aid, now)
    {
      if aid !in approvals.approvals {
        return false;
      }
      var a := approvals.approvals[aid];
      if a.review.approved != Some(true) {
        return false;
      }
      return a.subject.expiresAt == None || a.subject.expiresAt.value > now;
    }

    /** replay_approved up to its call of the policy engine; a replay that is not permitted raises. */
    method ReplayApproved(rid: Uuid, aid: Uuid, historyOk: bool, env: Env) returns (started: bool)
      requires Valid() && Enabled(Now(), DoReplayStart(rid, aid, historyOk))
      modifies this
      ensures Valid() && Now() == ReplayStart(cfg, old(Now()), rid, aid, historyOk, env)
      ensures started == Replayable(approvals.Now(), aid, env.now)
    {
      started := MayReplay(aid, env.now);
      if started {
        var a := approvals.approvals[aid];
        var req := ReplayRequest(a);
        var risk := AssessRisk(req, historyOk);
        used := used + {rid};
        flights := flights[rid := AwaitReplayPolicy(aid, req, risk, a.review.approverId)];
        trace := trace + [ReplayChecked(rid, aid, env.now)];
      }
    }

    method ResumeReplay(rid: Uuid, reply: Reply, posture: bool, env: Env)
      requires Valid() && Enabled(Now(), DoReplayRun(rid, reply, posture))
      modifies this
      ensures Valid() && Now() == ReplayRun(cfg, old(Now()), rid, reply, posture, env)
    {
      var f := flights[rid];
      var policy := PolicyOf(cfg, f, reply);
      flights := flights[rid := RunningReplay(f.approvalId, f.req, f.risk, policy, f.approver)];
      if Dispatches(ForcedDecision(f.req.tool), f.req.tool, posture) {
        trace := trace + [RanAgain(rid, f, policy, env.now)];
      }
    }

    method CompleteReplay(rid: Uuid, result: ToolResult, env: Env)
      requires Valid() && Enabled(Now(), DoReplayFinish(rid, result))
      modifies this, auditLog
      ensures Valid() && Now() == ReplayFinish(cfg, old(Now()), rid, result, env)
    {
      var f := flights[rid];
      var error := if result.success then None else result.error;
      LogAudit(EntryFor(f.req, rid, f.risk, f.policy, ForcedDecision(f.req.tool), Some(result), error, env.ms,
                        Some(f.approvalId), f.approver, Some(f.approvalId)), env);
      trace := trace + [ReplayDone(rid)];
      Answer(rid, Allow);
    }

    // ---------- the approval service ----------

    method Decide(aid: Uuid, approved: bool, approver: string, comment: Option<string>, env: Env) returns (found: bool)
      requires Valid() && Enabled(Now(), DoReview(aid, approved, approver, comment))
      modifies this, approvals
      ensures Valid() && Now() == Review(cfg, old(Now()), aid, approved, approver, comment, env)
    {
      found := approvals.DecideRequest(aid, approved, approver, comment, env.now);
      if found {
        trace := trace + [Reviewed(aid, approved)];
      }
    }

    method RetryWebhook(aid: Uuid, env: Env) returns (found: bool)
      requires Valid() && Enabled(Now(), DoRetry(aid))
      modifies this, approvals
      ensures Valid() && Now() == RetryHook(cfg, old(Now()), aid, env)
    {
      found := approvals.RetryWebhook(aid, env.now);
      if found {
        trace := trace + [Retried(aid)];
      }
    }

    method DrainOutbox(limit: nat, env: Env) returns (r: Outbox.DrainResult)
      requires Valid() && Enabled(Now(), DoDrain(limit))
      modifies this, approvals
      ensures Valid() && (approvals.Now(), r) == Outbox.Drain(cfg.hooks, cfg.net, old(approvals.Now()), limit, env.now)
      ensures Now() == old(Now()).(service := approvals.Now())
    {
      Delivery.DrainOk(cfg.hooks, cfg.net, approvals.Now(), limit, env.now);
      r := approvals.DrainOutbox(limit, env.now);
    }
  }
}
