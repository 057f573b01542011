/** From submission to decision: the risk of a request is fixed when it is submitted, whatever else happens
    before it is judged, and decides whether a human is asked. */
module KernelGates {
  import opened Base
  import opened Risk
  import opened Policy
  import opened KernelSpec
  import opened KernelHistory
  import opened KernelLedger
  import AuditChain
  import RateLimit
  import Capability

  // ---------- one judgement ----------

  /** The judgement asks a human: an approval is stored for the request, the request is answered
      APPROVAL_REQUIRED, and nothing else happens; in particular no tool runs. */
  predicate Asks(cfg: Config, w: World, w': World, rid: Uuid, f: Flight, aid: Uuid, now: int)
    requires f.AwaitPolicy?
  {
    w'.trace == w.trace + [StoredEvent(cfg, rid, f, aid, now), Responded(rid, ApprovalRequired)]
  }

  /** Does the rate limit stop this request, in a mode that does not ask a human either? */
  predicate Diverted(cfg: Config, w: World, req: Request, now: int) {
    Blocked(Limited(cfg, w, req, now).1) && cfg.mode != "approval_required"
  }

  lemma AskApprovalAsks(cfg: Config, w: World, rid: Uuid, f: Flight, policy: Evaluation, error: string, aid: Uuid,
                        env: Env)
    requires f.AwaitPolicy?
    ensures Asks(cfg, w, AskApproval(cfg, w, rid, f, policy, error, aid, env), rid, f, aid, env.now)
  {
  }

  lemma OthersDoNotAsk(cfg: Config, w: World, rid: Uuid, f: Flight, policy: Evaluation, final: Decision,
                       error: Option<string>,
                       quota: Option<RateLimit.Quota>, counted: Option<RateLimit.Event>, posture: bool, aid: Uuid,
                       env: Env)
    requires f.AwaitPolicy?
    ensures !Asks(cfg, w, Close(cfg, w, rid, f, policy, final, error, env), rid, f, aid, env.now)
    ensures !Asks(cfg, w, RunTool(w, rid, f, policy, final, quota, counted, posture, env.now), rid, f, aid, env.now)
  {
    var asked := w.trace + [StoredEvent(cfg, rid, f, aid, env.now), Responded(rid, ApprovalRequired)];
    assert |Close(cfg, w, rid, f, policy, final, error, env).trace| < |asked|;
    assert |RunTool(w, rid, f, policy, final, quota, counted, posture, env.now).trace| < |asked|;
  }

  /** A gated request whose risk is not LOW, or any gated request with auto-approval off, is referred to a
      human, whatever the policy server answers, if and only if the rate limit does not divert it. */
  lemma GateAsks(cfg: Config, w: World, rid: Uuid, reply: Reply, aid: Uuid, posture: bool, env: Env)
    requires rid in w.flights && w.flights[rid].AwaitPolicy?
    requires w.flights[rid].req.tool in GATED_TOOLS && (w.flights[rid].risk.level != Low || !cfg.autoApprove)
    ensures Asks(cfg, w, Judge(cfg, w, rid, reply, aid, posture, env), rid, w.flights[rid], aid, env.now)
            <==> !Diverted(cfg, w, w.flights[rid].req, env.now)
  {
    var f := w.flights[rid];
    var policy := PolicyOf(cfg, f, reply);
    var (w1, q) := Limited(cfg, w, f.req, env.now);
    var counted := CountedAs(cfg, w, f.req, env.now);
    if Blocked(q) {
      var error := QuotaMessage(q.value);
      AskApprovalAsks(cfg, w1, rid, f, policy, error, aid, env);
      OthersDoNotAsk(cfg, w1, rid, f, policy, Sandbox, None, Some(q.value), counted, posture, aid, env);
      OthersDoNotAsk(cfg, w1, rid, f, policy, Quarantine, Some(error), None, counted, posture, aid, env);
    } else {
      GatedNeedApproval(f.req.tool, policy.decision, f.risk.level, cfg.sandboxType);
      AskApprovalAsks(cfg, w1, rid, f, policy, "Approval required", aid, env);
    }
  }

  // ---------- requests that the policy denies ----------

  /** The request is answered without a tool and without a human. */
  predicate Closes(w: World, w': World, rid: Uuid, d: Decision) {
    w'.trace == w.trace + [Responded(rid, d)]
  }

  /** The tool of the request runs. */
  predicate RunsNow(w: World, w': World, rid: Uuid) {
    && |w'.trace| == |w.trace| + 1 && w'.trace[..|w.trace|] == w.trace
    && w'.trace[|w.trace|].Ran? && w'.trace[|w.trace|].rid == rid
  }

  lemma OutcomesDiffer(cfg: Config, w: World, rid: Uuid, f: Flight, policy: Evaluation, final: Decision,
                       error: Option<string>, text: string, quota: Option<RateLimit.Quota>,
                       counted: Option<RateLimit.Event>, posture: bool, aid: Uuid, env: Env)
    requires f.AwaitPolicy?
    ensures var c := Close(cfg, w, rid, f, policy, final, error, env);
            Closes(w, c, rid, final) && !RunsNow(w, c, rid) && forall d :: Closes(w, c, rid, d) ==> d == final
    ensures var a := AskApproval(cfg, w, rid, f, policy, text, aid, env);
            !RunsNow(w, a, rid) && forall d :: !Closes(w, a, rid, d)
    ensures var r := RunTool(w, rid, f, policy, final, quota, counted, posture, env.now);
            && (forall d :: !Closes(w, r, rid, d))
            && (RunsNow(w, r, rid) <==> Dispatches(final, f.req.tool, posture))
  {
    var c := Close(cfg, w, rid, f, policy, final, error, env);
    var a := AskApproval(cfg, w, rid, f, policy, text, aid, env);
    var r := RunTool(w, rid, f, policy, final, quota, counted, posture, env.now);
    assert c.trace[|w.trace|] == Responded(rid, final);
    assert |a.trace| == |w.trace| + 2;
    assert |r.trace| == |w.trace| + 1 ==> r.trace[|w.trace|].Ran?;
    forall d ensures (w.trace + [Responded(rid, d)])[|w.trace|] == Responded(rid, d) {
    }
  }

  /** What becomes of a request that the policy denies, exactly. It is answered DENY only if its tool is not
      gated and the rate limit does not stop it. A gated one is referred to a human, or run if auto-approval
      finds it LOW; one that the rate limit stops is treated as any other: referred, sandboxed or
      quarantined, by the mode. */
  lemma DeniedGoesTo(cfg: Config, w: World, rid: Uuid, reply: Reply, aid: Uuid, posture: bool, env: Env)
    requires rid in w.flights && w.flights[rid].AwaitPolicy? && PolicyOf(cfg, w.flights[rid], reply).decision == Deny
    ensures var (w', f) := (Judge(cfg, w, rid, reply, aid, posture, env), w.flights[rid]);
            var (over, gated) := (Blocked(Limited(cfg, w, f.req, env.now).1), f.req.tool in GATED_TOOLS);
            var waved := cfg.autoApprove && f.risk.level == Low;
            && (Closes(w, w', rid, Deny) <==> !over && !gated)
            && (Closes(w, w', rid, Quarantine) <==> over && cfg.mode !in {"approval_required", "sandbox"})
            && (Asks(cfg, w, w', rid, f, aid, env.now)
               <==> if over then cfg.mode == "approval_required" else gated && !waved)
            && (RunsNow(w, w', rid)
                <==> if over then cfg.mode == "sandbox" && posture && f.req.tool in BROKER_TOOLS else gated && waved)
  {
    var f := w.flights[rid];
    var policy := PolicyOf(cfg, f, reply);
    var (w1, q) := Limited(cfg, w, f.req, env.now);
    var counted := CountedAs(cfg, w, f.req, env.now);
    if Blocked(q) {
      ThrottleOutcome(cfg, w1, rid, f, policy, q.value, counted, aid, posture, env);
    } else {
      GatedNeedApproval(f.req.tool, policy.decision, f.risk.level, cfg.sandboxType);
      DeniedOutcome(cfg, w1, rid, f, policy, counted, aid, posture, env);
    }
  }

  lemma ThrottleOutcome(cfg: Config, w: World, rid: Uuid, f: Flight, policy: Evaluation, q: RateLimit.Quota,
                        counted: Option<RateLimit.Event>, aid: Uuid, posture: bool, env: Env)
    requires f.AwaitPolicy?
    ensures var w' := Throttle(cfg, w, rid, f, policy, q, counted, aid, posture, env);
            && !Closes(w, w', rid, Deny)
            && (Closes(w, w', rid, Quarantine) <==> cfg.mode !in {"approval_required", "sandbox"})
            && (Asks(cfg, w, w', rid, f, aid, env.now) <==> cfg.mode == "approval_required")
            && (RunsNow(w, w', rid) <==> cfg.mode == "sandbox" && posture && f.req.tool in BROKER_TOOLS)
  {
    var error := QuotaMessage(q);
    OutcomesDiffer(cfg, w, rid, f, policy, Quarantine, Some(error), error, None, counted, posture, aid, env);
    OutcomesDiffer(cfg, w, rid, f, policy, Sandbox, Some(error), error, Some(q), counted, posture, aid, env);
    AskApprovalAsks(cfg, w, rid, f, policy, error, aid, env);
    OthersDoNotAsk(cfg, w, rid, f, policy, Quarantine, Some(error), None, counted, posture, aid, env);
    OthersDoNotAsk(cfg, w, rid, f, policy, Sandbox, None, Some(q), counted, posture, aid, env);
  }

  lemma DeniedOutcome(cfg: Config, w: World, rid: Uuid, f: Flight, policy: Evaluation,
                      counted: Option<RateLimit.Event>, aid: Uuid, posture: bool, env: Env)
    requires f.AwaitPolicy? && policy.decision == Deny
    ensures var w' := Proceed(cfg, w, rid, f, policy, counted, aid, posture, env);
            var (gated, waved) := (f.req.tool in GATED_TOOLS, cfg.autoApprove && f.risk.level == Low);
            && (Closes(w, w', rid, Deny) <==> !gated) && !Closes(w, w', rid, Quarantine)
            && (Asks(cfg, w, w', rid, f, aid, env.now) <==> gated && !waved)
            && (RunsNow(w, w', rid) <==> gated && waved)
  {
    OutcomesDiffer(cfg, w, rid, f, policy, Deny, None, "Approval required", None, counted, posture, aid, env);
    OutcomesDiffer(cfg, w, rid, f, policy, Allow, None, "Approval required", None, counted, posture, aid, env);
    AskApprovalAsks(cfg, w, rid, f, policy, "Approval required", aid, env);
    OthersDoNotAsk(cfg, w, rid, f, policy, Deny, None, None, counted, posture, aid, env);
    OthersDoNotAsk(cfg, w, rid, f, policy, Allow, None, None, counted, posture, aid, env);
  }

  /** Over every run: a tool runs for a request that the policy denied only under one of the two unattended
      settings, or as a replay. */
  lemma DeniedRunsOnlyUnattended(cfg: Config, worlds: seq<World>, steps: seq<(Step, Env)>, n: nat, k: nat)
    requires IsRun(cfg, worlds, steps) && n <= |steps| && k < |worlds[n].trace| && worlds[n].trace[k].Ran?
    requires worlds[n].trace[k].policy == Deny && !cfg.autoApprove && !(cfg.anomaly && cfg.mode == "sandbox")
    ensures worlds[n].trace[k].via.ByReplay?
  {
    EveryRunJustified(cfg, worlds, steps, n, k);
  }

  // ---------- from submission to judgement ----------

  /** While request rid waits for the policy server, it is f. */
  ghost predicate Waits(w: World, rid: Uuid, f: Flight) {
    rid in w.used && (rid in w.flights && w.flights[rid].AwaitPolicy? ==> w.flights[rid] == f)
  }

  /** The row carries this score and level. */
  ghost predicate RowRisk(r: AuditChain.Row, risk: Assessment) {
    r.riskScore == risk.score && AuditChain.DbLevelValue(r.riskLevel) == AuditChain.LevelValue(risk.level)
  }

  /** Every new row is of request x and carries its risk. */
  ghost predicate RowsOf(before: Rows, after: Rows, x: Uuid, risk: Assessment) {
    forall r | r in after :: r in before || (r.requestId == x && RowRisk(r, risk))
  }

  /** A step of request x leaves every other request alone, x keeps its risk and does not wait afterwards, and
      the rows that the step adds are of x and carry that risk. */
  ghost predicate Touches(w: World, w': World, x: Uuid, risk: Assessment) {
    && w'.used == w.used
    && (forall r | r != x ::
          (r in w'.flights <==> r in w.flights) && (r in w.flights ==> w'.flights[r] == w.flights[r]))
    && (x in w'.flights ==> !w'.flights[x].AwaitPolicy? && w'.flights[x].risk == risk)
    && RowsOf(w.audit, w'.audit, x, risk)
  }

  lemma LogTouches(cfg: Config, w: World, e: AuditChain.Entry, env: Env, risk: Assessment)
    requires e.score == risk.score && e.level == risk.level
    ensures RowsOf(w.audit, Log(cfg, w, e, env).audit, e.requestId, risk)
  {
    if env.commits {
      var (p, row) := (AuditChain.Spot(w.audit, env.now, env.tie), AuditChain.Next(cfg.H, w.audit, e, env.now));
      forall r | r in Log(cfg, w, e, env).audit ensures r in w.audit || r == row {
        AuditChain.InsertKeepsRows(w.audit, p, row, r);
      }
    }
  }

  lemma RespondTouches(cfg: Config, w: World, rid: Uuid, f: Flight, policy: Evaluation, final: Decision,
                       error: Option<string>, text: string, aid: Uuid, env: Env)
    requires f.AwaitPolicy?
    ensures Touches(w, AskApproval(cfg, w, rid, f, policy, text, aid, env), rid, f.risk)
    ensures Touches(w, Close(cfg, w, rid, f, policy, final, error, env), rid, f.risk)
  {
    LogTouches(cfg, w, EntryFor(f.req, rid, f.risk, policy, final, None, error, env.ms, None, None, None), env, f.risk);
    LogTouches(cfg, w, EntryFor(f.req, rid, f.risk, policy, ApprovalRequired, None, Some(text), env.ms, Some(aid),
                                None, None),
               env, f.risk);
  }

  lemma RunToolTouches(w: World, rid: Uuid, f: Flight, policy: Evaluation, final: Decision,
                       quota: Option<RateLimit.Quota>, counted: Option<RateLimit.Event>, posture: bool, now: int)
    requires f.AwaitPolicy?
    ensures Touches(w, RunTool(w, rid, f, policy, final, quota, counted, posture, now), rid, f.risk)
  {
  }

  lemma ThrottleTouches(cfg: Config, w: World, rid: Uuid, f: Flight, policy: Evaluation, q: RateLimit.Quota,
                        counted: Option<RateLimit.Event>, aid: Uuid, posture: bool, env: Env)
    requires f.AwaitPolicy?
    ensures Touches(w, Throttle(cfg, w, rid, f, policy, q, counted, aid, posture, env), rid, f.risk)
  {
    RespondTouches(cfg, w, rid, f, policy, Quarantine, Some(QuotaMessage(q)), QuotaMessage(q), aid, env);
    RunToolTouches(w, rid, f, policy, Sandbox, Some(q), counted, posture, env.now);
  }

  lemma ProceedTouches(cfg: Config, w: World, rid: Uuid, f: Flight, policy: Evaluation,
                       counted: Option<RateLimit.Event>, aid: Uuid, posture: bool, env: Env)
    requires f.AwaitPolicy?
    ensures Touches(w, Proceed(cfg, w, rid, f, policy, counted, aid, posture, env), rid, f.risk)
  {
    var final := FinalDecision(f.req.tool, policy.decision, f.risk.level, cfg.sandboxType);
    RespondTouches(cfg, w, rid, f, policy, final, None, "Approval required", aid, env);
    RunToolTouches(w, rid, f, policy, if final == ApprovalRequired then Allow else final, None, counted, posture,
                   env.now);
  }

  lemma JudgeTouches(cfg: Config, w: World, rid: Uuid, reply: Reply, aid: Uuid, posture: bool, env: Env)
    requires rid in w.flights && w.flights[rid].AwaitPolicy?
    ensures Touches(w, Judge(cfg, w, rid, reply, aid, posture, env), rid, w.flights[rid].risk)
  {
    var f := w.flights[rid];
    var policy := PolicyOf(cfg, f, reply);
    var (w1, q) := Limited(cfg, w, f.req, env.now);
    var counted := CountedAs(cfg, w, f.req, env.now);
    if Blocked(q) {
      ThrottleTouches(cfg, w1, rid, f, policy, q.value, counted, aid, posture, env);
    } else {
      ProceedTouches(cfg, w1, rid, f, policy, counted, aid, posture, env);
    }
  }

  lemma SubmitLeavesWaiting(cfg: Config, w: World, x: Uuid, req: Request, historyOk: bool, rid: Uuid, f: Flight)
    requires Capability.WellFormed(cfg.registry) && x !in w.used && Waits(w, rid, f)
    ensures Waits(Submit(cfg, w, x, req, historyOk), rid, f)
  {
  }

  lemma ReplayLeavesWaiting(cfg: Config, w: World, x: Uuid, aid: Uuid, historyOk: bool, env: Env, rid: Uuid, f: Flight)
    requires x !in w.used && Waits(w, rid, f)
    ensures Waits(ReplayStart(cfg, w, x, aid, historyOk, env), rid, f)
  {
  }

  lemma FinishTouches(cfg: Config, w: World, x: Uuid, result: ToolResult, env: Env)
    requires x in w.flights
    ensures w.flights[x].Running? ==> Touches(w, Finish(cfg, w, x, result, env), x, w.flights[x].risk)
    ensures w.flights[x].RunningReplay? ==> Touches(w, ReplayFinish(cfg, w, x, result, env), x, w.flights[x].risk)
  {
    var f := w.flights[x];
    if f.Running? {
      LogTouches(cfg, w, FinishEntry(f, x, result, env.ms), env, f.risk);
    } else if f.RunningReplay? {
      LogTouches(cfg, w, ReplayEntry(f, x, result, env.ms), env, f.risk);
    }
  }

  lemma RunReplayTouches(w: World, x: Uuid, f: Flight, policy: Evaluation, posture: bool, now: int)
    requires f.AwaitReplayPolicy?
    ensures Touches(w, RunReplay(w, x, f, policy, posture, now), x, f.risk)
  {
  }

  lemma StepLeavesWaiting(cfg: Config, w: World, step: Step, env: Env, rid: Uuid, f: Flight)
    requires Capability.WellFormed(cfg.registry) && Enabled(w, step) && Waits(w, rid, f)
    ensures Waits(Next(cfg, w, step, env), rid, f)
  {
    match step
    case DoSubmit(x, req, historyOk) => SubmitLeavesWaiting(cfg, w, x, req, historyOk, rid, f);
    case DoJudge(x, reply, aid, posture) => JudgeTouches(cfg, w, x, reply, aid, posture, env);
    case DoFinish(x, result) => FinishTouches(cfg, w, x, result, env);
    case DoReplayStart(x, aid, historyOk) => ReplayLeavesWaiting(cfg, w, x, aid, historyOk, env, rid, f);
    case DoReplayRun(x, reply, posture) =>
      RunReplayTouches(w, x, w.flights[x], PolicyOf(cfg, w.flights[x], reply), posture, env.now);
    case DoReplayFinish(x, result) => FinishTouches(cfg, w, x, result, env);
    case _ =>
  }

  lemma {:induction false} RunLeavesWaiting(cfg: Config, worlds: seq<World>, steps: seq<(Step, Env)>, j: nat, k: nat,
                                            rid: Uuid, f: Flight)
    requires IsRun(cfg, worlds, steps) && j <= k <= |steps| && Waits(worlds[j], rid, f)
    ensures Waits(worlds[k], rid, f)
    decreases k - j
  {
    if j == k {
    } else {
      StepLeavesWaiting(cfg, worlds[j], steps[j].0, steps[j].1, rid, f);
      RunLeavesWaiting(cfg, worlds, steps, j + 1, k, rid, f);
    }
  }

  function FlightOf(cfg: Config, w: World, req: Request, historyOk: bool): Flight {
    AwaitPolicy(req, Assess(cfg.profiles, cfg.risk, req, if historyOk then Some(w.audit) else None))
  }

  lemma SubmitWaits(cfg: Config, w: World, rid: Uuid, req: Request, historyOk: bool)
    requires Capability.WellFormed(cfg.registry) && rid !in w.flights
    ensures Waits(Submit(cfg, w, rid, req, historyOk), rid, FlightOf(cfg, w, req, historyOk))
  {
  }

  /** The request and the risk that are judged at step k are those of its submission at step j, assessed
      against the audit log of that moment, whatever was interleaved. */
  lemma RiskFixedAtSubmission(cfg: Config, worlds: seq<World>, steps: seq<(Step, Env)>, j: nat, k: nat)
    requires IsRun(cfg, worlds, steps) && j < k < |steps|
    requires steps[j].0.DoSubmit? && steps[k].0.DoJudge? && steps[j].0.rid == steps[k].0.rid
    ensures steps[k].0.rid in worlds[k].flights
    ensures worlds[k].flights[steps[k].0.rid] == FlightOf(cfg, worlds[j], steps[j].0.req, steps[j].0.historyOk)
  {
    var (rid, f) := (steps[k].0.rid, FlightOf(cfg, worlds[j], steps[j].0.req, steps[j].0.historyOk));
    RunKeeps(cfg, worlds, steps, j);
    SubmitWaits(cfg, worlds[j], rid, steps[j].0.req, steps[j].0.historyOk);
    RunLeavesWaiting(cfg, worlds, steps, j + 1, k, rid, f);
  }

  // ---------- the risk of a request in the log ----------

  /** Request rid has this risk wherever it appears. */
  ghost predicate Carries(w: World, rid: Uuid, risk: Assessment) {
    && rid in w.used && (rid in w.flights ==> w.flights[rid].risk == risk)
    && forall r | r in w.audit && r.requestId == rid :: RowRisk(r, risk)
  }

  lemma TouchCarries(w: World, w': World, x: Uuid, rid: Uuid, risk: Assessment)
    requires x in w.flights && Touches(w, w', x, w.flights[x].risk) && Carries(w, rid, risk)
    ensures Carries(w', rid, risk)
  {
  }

  lemma TakeInCarries(cfg: Config, w: World, step: Step, env: Env, rid: Uuid, risk: Assessment)
    requires Capability.WellFormed(cfg.registry) && Enabled(w, step) && Carries(w, rid, risk)
    requires step.DoSubmit? || step.DoReplayStart?
    ensures Carries(Next(cfg, w, step, env), rid, risk)
  {
  }

  lemma StepCarries(cfg: Config, w: World, step: Step, env: Env, rid: Uuid, risk: Assessment)
    requires Capability.WellFormed(cfg.registry) && Enabled(w, step) && Carries(w, rid, risk)
    ensures Carries(Next(cfg, w, step, env), rid, risk)
  {
    var w' := Next(cfg, w, step, env);
    match step
    case DoSubmit(_, _, _) => TakeInCarries(cfg, w, step, env, rid, risk);
    case DoJudge(x, reply, aid, posture) =>
      JudgeTouches(cfg, w, x, reply, aid, posture, env);
      TouchCarries(w, w', x, rid, risk);
    case DoFinish(x, result) =>
      FinishTouches(cfg, w, x, result, env);
      TouchCarries(w, w', x, rid, risk);
    case DoReplayStart(_, _, _) => TakeInCarries(cfg, w, step, env, rid, risk);
    case DoReplayRun(x, reply, posture) =>
      RunReplayTouches(w, x, w.flights[x], PolicyOf(cfg, w.flights[x], reply), posture, env.now);
      TouchCarries(w, w', x, rid, risk);
    case DoReplayFinish(x, result) =>
      FinishTouches(cfg, w, x, result, env);
      TouchCarries(w, w', x, rid, risk);
    case _ =>
  }

  lemma {:induction false} RunCarries(cfg: Config, worlds: seq<World>, steps: seq<(Step, Env)>, j: nat, k: nat,
                                      rid: Uuid, risk: Assessment)
    requires IsRun(cfg, worlds, steps) && j <= k <= |steps| && Carries(worlds[j], rid, risk)
    ensures Carries(worlds[k], rid, risk)
    decreases k - j
  {
    if j == k {
    } else {
      StepCarries(cfg, worlds[j], steps[j].0, steps[j].1, rid, risk);
      RunCarries(cfg, worlds, steps, j + 1, k, rid, risk);
    }
  }

  /** The step takes the request in: it submits it, or starts the replay. */
  predicate TakesIn(w: World, step: Step, rid: Uuid, now: int) {
    || (step.DoSubmit? && step.rid == rid)
    || (step.DoReplayStart? && step.rid == rid && Replayable(w.service, step.aid, now))
  }

  /** The risk that the engine assesses in such a step, against the audit log of that moment. */
  function RiskTaken(cfg: Config, w: World, step: Step, now: int): Assessment
    requires (step.DoSubmit? || step.DoReplayStart?) && TakesIn(w, step, step.rid, now)
  {
    var req := if step.DoSubmit? then step.req else ReplayRequest(w.service.approvals[step.aid]);
    Assess(cfg.profiles, cfg.risk, req, if step.historyOk then Some(w.audit) else None)
  }

  lemma TakenCarries(cfg: Config, w: World, step: Step, env: Env, rid: Uuid)
    requires Capability.WellFormed(cfg.registry) && Enabled(w, step) && TakesIn(w, step, rid, env.now)
    requires rid !in w.flights && forall r | r in w.audit :: r.requestId != rid
    ensures Carries(Next(cfg, w, step, env), rid, RiskTaken(cfg, w, step, env.now))
  {
  }

  lemma OnlyTakersAdd(cfg: Config, w: World, step: Step, env: Env, rid: Uuid)
    requires Capability.WellFormed(cfg.registry) && Enabled(w, step)
    requires rid !in w.used && rid in Next(cfg, w, step, env).used
    ensures TakesIn(w, step, rid, env.now)
  {
    match step
    case DoJudge(x, reply, aid, posture) => JudgeTouches(cfg, w, x, reply, aid, posture, env);
    case DoFinish(x, result) => FinishTouches(cfg, w, x, result, env);
    case DoReplayRun(x, reply, posture) =>
      RunReplayTouches(w, x, w.flights[x], PolicyOf(cfg, w.flights[x], reply), posture, env.now);
    case DoReplayFinish(x, result) => FinishTouches(cfg, w, x, result, env);
    case _ =>
  }

  lemma LastStepTakes(cfg: Config, worlds: seq<World>, steps: seq<(Step, Env)>, k: nat, rid: Uuid)
    requires IsRun(cfg, worlds, steps) && k < |steps| && rid !in worlds[k].used && rid in worlds[k + 1].used
    ensures TakesIn(worlds[k], steps[k].0, rid, steps[k].1.now)
  {
    OnlyTakersAdd(cfg, worlds[k], steps[k].0, steps[k].1, rid);
  }

  lemma {:induction false} FirstUse(worlds: seq<World>, k: nat, rid: Uuid) returns (j: nat)
    requires k < |worlds| && worlds[0].used == {} && rid in worlds[k].used
    ensures j < k && rid !in worlds[j].used && rid in worlds[j + 1].used
  {
    if rid in worlds[k - 1].used {
      j := FirstUse(worlds, k - 1, rid);
    } else {
      j := k - 1;
    }
  }

  lemma TakenInOnce(cfg: Config, worlds: seq<World>, steps: seq<(Step, Env)>, k: nat, rid: Uuid) returns (j: nat)
    requires IsRun(cfg, worlds, steps) && k <= |steps| && rid in worlds[k].used
    ensures j < k && rid !in worlds[j].used && TakesIn(worlds[j], steps[j].0, rid, steps[j].1.now)
  {
    j := FirstUse(worlds, k, rid);
    LastStepTakes(cfg, worlds, steps, j, rid);
  }

  // ---------- who is always referred to a human ----------

  /** The agent's latest reads: row i of the log is one of them, and fewer than the lookback limit of the
      agent's rows follow it. */
  predicate RecentRead(rows: seq<AuditChain.Row>, i: nat, agent: string, lookback: nat) {
    i < |rows| && rows[i].agentId == agent && rows[i].tool in READ_TOOLS && CountOf(rows[i + 1..], agent) < lookback
  }

  /** exec, delete_file, and a network request whose agent has read something recently. */
  ghost predicate NeverLow(req: Request, rows: Option<seq<AuditChain.Row>>) {
    || req.tool in {"exec", "delete_file"}
    || (req.tool == "http_request" && rows.Some?
        && exists i: nat :: RecentRead(rows.value, i, req.agent.id, DEFAULT_CONFIG.lookback))
  }

  lemma FinishLogsAction(cfg: Config, w: World, rid: Uuid, result: ToolResult, env: Env) returns (r: AuditChain.Row)
    requires rid in w.flights && w.flights[rid].Running? && env.commits
    ensures var req := w.flights[rid].req; r.requestId == rid && r.agentId == req.agent.id && r.tool == req.tool
    ensures r in Finish(cfg, w, rid, result, env).audit
  {
    var p := AuditChain.Spot(w.audit, env.now, env.tie);
    r := Finish(cfg, w, rid, result, env).audit[p];
  }

  /** A read whose end was logged at step i marks the agent's network requests, for any clock: its row is
      still in the log when one is submitted at step j, which is then never LOW as long as fewer than the
      lookback limit of the agent's rows follow that row. */
  lemma FinishedReadMarks(cfg: Config, worlds: seq<World>, steps: seq<(Step, Env)>, i: nat, j: nat) returns (p: nat)
    requires IsRun(cfg, worlds, steps) && i < j < |steps|
    requires steps[i].0.DoFinish? && steps[i].1.commits && worlds[i].flights[steps[i].0.rid].req.tool in READ_TOOLS
    requires steps[j].0.DoSubmit? && steps[j].0.req.tool == "http_request"
    requires steps[j].0.req.agent.id == worlds[i].flights[steps[i].0.rid].req.agent.id
    ensures p < |worlds[j].audit| && worlds[j].audit[p].requestId == steps[i].0.rid
    ensures CountOf(worlds[j].audit[p + 1..], steps[j].0.req.agent.id) < DEFAULT_CONFIG.lookback ==>
              NeverLow(steps[j].0.req, Some(worlds[j].audit))
  {
    var r := FinishLogsAction(cfg, worlds[i], steps[i].0.rid, steps[i].0.result, steps[i].1);
    RowsStay(cfg, worlds, steps, i + 1, j);
    assert r in worlds[i + 1].audit;
    p :| 0 <= p < |worlds[j].audit| && worlds[j].audit[p] == r;
    if CountOf(worlds[j].audit[p + 1..], steps[j].0.req.agent.id) < DEFAULT_CONFIG.lookback {
      assert RecentRead(worlds[j].audit, p, steps[j].0.req.agent.id, DEFAULT_CONFIG.lookback);
    }
  }

  lemma NeverLowScores(req: Request, rows: Option<seq<AuditChain.Row>>)
    requires NeverLow(req, rows)
    ensures Assess(SHIPPED_PROFILES, DEFAULT_CONFIG, req, rows).level != Low
    ensures req.tool == "http_request" ==> Assess(SHIPPED_PROFILES, DEFAULT_CONFIG, req, rows).score >= 0.55
  {
    if req.tool == "http_request" {
      var i: nat :| RecentRead(rows.value, i, req.agent.id, DEFAULT_CONFIG.lookback);
      ChainedIffRecentRead(DEFAULT_CONFIG, req, rows.value);
    }
    ScoreInRange(DEFAULT_CONFIG, req, rows);
    LevelsByTool(req, rows);
  }

  /** Read-then-network, end to end. With the shipped profiles and the default thresholds, in every
      interleaving and with auto-approval on or off: a request of exec or delete_file, or of http_request by
      an agent with a recent read in the audit log when it was submitted, is referred to a human when it
      is judged, and no tool runs for it, if and only if the rate limit does not divert it. */
  lemma NeverLowAsks(cfg: Config, worlds: seq<World>, steps: seq<(Step, Env)>, j: nat, k: nat)
    requires IsRun(cfg, worlds, steps) && j < k < |steps|
    requires steps[j].0.DoSubmit? && steps[k].0.DoJudge? && steps[j].0.rid == steps[k].0.rid
    requires cfg.profiles == SHIPPED_PROFILES && cfg.risk == DEFAULT_CONFIG
    requires NeverLow(steps[j].0.req, if steps[j].0.historyOk then Some(worlds[j].audit) else None)
    ensures var (req, rid, env) := (steps[j].0.req, steps[k].0.rid, steps[k].1);
            Asks(cfg, worlds[k], worlds[k + 1], rid, FlightOf(cfg, worlds[j], req, steps[j].0.historyOk),
                 steps[k].0.aid, env.now)
            <==> !Diverted(cfg, worlds[k], req, env.now)
  {
    RiskFixedAtSubmission(cfg, worlds, steps, j, k);
    NeverLowScores(steps[j].0.req, if steps[j].0.historyOk then Some(worlds[j].audit) else None);
    GateAsks(cfg, worlds[k], steps[k].0.rid, steps[k].0.reply, steps[k].0.aid, steps[k].0.posture, steps[k].1);
  }
}
