/** The audit log under the kernel: it only grows, it verifies after every step, and it balances with the
    recorded actions. */
module KernelLedger {
  import opened Base
  import opened Risk
  import opened Policy
  import opened KernelSpec
  import opened KernelHistory
  import opened KernelAccounts
  import AuditChain
  import RateLimit
  import Outbox
  import Capability

  type Rows = seq<AuditChain.Row>

  // ---------- the log ----------

  /** For any clock: what the logger may leave behind is what the kernel's Log leaves, for some place among
      the rows with the same stamp. */
  lemma LogIsLogStep(cfg: Config, w: World, e: AuditChain.Entry, now: int, commits: bool, ms: int, out: Rows)
    requires AuditChain.InOrder(w.audit)
    ensures AuditChain.LogStep(cfg.H, w.audit, AuditChain.LogCall(e, now, commits), out)
            <==> exists tie: nat :: out == Log(cfg, w, e, Env(now, commits, ms, tie)).audit
  {
    var r := AuditChain.Next(cfg.H, w.audit, e, now);
    if AuditChain.LogStep(cfg.H, w.audit, AuditChain.LogCall(e, now, commits), out) {
      if commits {
        var p: nat :| AuditChain.Fits(w.audit, p, now) && out == AuditChain.InsertAt(w.audit, p, r);
        AuditChain.SpotsAreFits(w.audit, now, p);
        var tie: nat :| p == AuditChain.Spot(w.audit, now, tie);
        assert out == Log(cfg, w, e, Env(now, commits, ms, tie)).audit;
      } else {
        assert out == Log(cfg, w, e, Env(now, commits, ms, 0)).audit;
      }
    }
    forall tie: nat | out == Log(cfg, w, e, Env(now, commits, ms, tie)).audit
      ensures AuditChain.LogStep(cfg.H, w.audit, AuditChain.LogCall(e, now, commits), out)
    {
      AuditChain.SpotsAreFits(w.audit, now, AuditChain.Spot(w.audit, now, tie));
    }
  }

  /** The log is as it was, or one row was added where its stamp puts it. */
  ghost predicate Moved(cfg: Config, before: Rows, after: Rows, env: Env) {
    after == before || (env.commits && exists e :: after == AuditChain.Logged(cfg.H, before, e, env.now, env.tie))
  }

  lemma LogMoves(cfg: Config, w: World, e: AuditChain.Entry, env: Env)
    ensures Moved(cfg, w.audit, Log(cfg, w, e, env).audit, env)
  {
  }

  /** The log is ordered by its stamps, which are among these. */
  ghost predicate LogOk(rows: Rows, stamps: set<int>) {
    AuditChain.InOrder(rows) && forall i | 0 <= i < |rows| :: rows[i].startTime in stamps
  }

  lemma MoveKeepsLog(cfg: Config, before: Rows, after: Rows, env: Env, stamps: set<int>)
    requires LogOk(before, stamps) && Moved(cfg, before, after, env)
    ensures LogOk(after, stamps + {env.now})
    ensures forall r | r in before :: r in after
  {
    if after != before {
      var e :| after == AuditChain.Logged(cfg.H, before, e, env.now, env.tie);
      var p := AuditChain.Spot(before, env.now, env.tie);
      var row := AuditChain.Next(cfg.H, before, e, env.now);
      AuditChain.SpotsAreFits(before, env.now, p);
      AuditChain.InsertKeepsOrder(before, p, row);
      forall r ensures r in after <==> r in before || r == row {
        AuditChain.InsertKeepsRows(before, p, row, r);
      }
      forall i | 0 <= i < |after| ensures after[i].startTime in stamps + {env.now} {
        assert after[i] in after;
      }
    }
  }

  /** A row stamped later than all others is appended, and the chain goes on. */
  lemma LatestKeepsChain(cfg: Config, before: Rows, after: Rows, env: Env, stamps: set<int>)
    requires LogOk(before, stamps) && Moved(cfg, before, after, env)
    requires AuditChain.Intact(cfg.H, before) && forall t | t in stamps :: t < env.now
    ensures AuditChain.Intact(cfg.H, after) && before <= after
  {
    if after != before {
      var e :| after == AuditChain.Logged(cfg.H, before, e, env.now, env.tie);
      var p := AuditChain.Spot(before, env.now, env.tie);
      AuditChain.SpotsAreFits(before, env.now, p);
      AuditChain.LastFits(before, p, env.now);
      AuditChain.AppendKeepsIntact(cfg.H, before, e, env.now);
      assert after == before + [AuditChain.Next(cfg.H, before, e, env.now)];
    }
  }

  // ---------- the balance ----------

  /** Recorded actions are audited once they are over, and replays are audited without being recorded:
      what is left of these three sums. */
  function Balance(w: World): int {
    |w.audit| + |RunningOf(w.flights)| - |w.limiter.table| - TallyOf(w.trace).replayed
  }

  lemma ReplayedGrows(tr: Trace, h: Happening)
    ensures TallyOf(tr + [h]).replayed == TallyOf(tr).replayed + if h.ReplayDone? then 1 else 0
  {
    TallyGrows(tr, h);
  }

  lemma RunningLands(flights: map<Uuid, Flight>, rid: Uuid)
    ensures |RunningOf(flights - {rid})|
            == |RunningOf(flights)| - if rid in flights && flights[rid].Running? then 1 else 0
  {
    assert RunningOf(flights - {rid}) == RunningOf(flights) - {rid};
  }

  lemma RunningRefits(flights: map<Uuid, Flight>, rid: Uuid, f: Flight)
    requires rid in flights ==> !flights[rid].Running?
    ensures |RunningOf(flights[rid := f])| == |RunningOf(flights)| + if f.Running? then 1 else 0
  {
    assert RunningOf(flights[rid := f]) == RunningOf(flights) + if f.Running? then {rid} else {};
  }

  /** One more of the recorded actions is accounted for. */
  ghost predicate Charged(cfg: Config, w: World, w': World, env: Env) {
    && Moved(cfg, w.audit, w'.audit, env)
    && w'.limiter == w.limiter
    && (env.commits ==> Balance(w') == Balance(w) + 1)
  }

  /** What every step keeps. */
  ghost predicate Kept(cfg: Config, w: World, w': World, env: Env) {
    && Moved(cfg, w.audit, w'.audit, env)
    && QuotaOk(w'.limiter.table, w'.limiter.next)
    && (env.commits && cfg.anomaly ==> Balance(w') == Balance(w))
  }

  /** A request that is audited and answered. */
  lemma LogRespondBalance(cfg: Config, w: World, e: AuditChain.Entry, env: Env, rid: Uuid, d: Decision)
    requires env.commits
    ensures Balance(Respond(Log(cfg, w, e, env), rid, d))
            == Balance(w) + if rid in w.flights && w.flights[rid].Running? then 0 else 1
  {
    RunningLands(w.flights, rid);
    ReplayedGrows(w.trace, Responded(rid, d));
  }

  lemma CloseLedger(cfg: Config, w: World, rid: Uuid, f: Flight, policy: Evaluation, final: Decision,
                    error: Option<string>, env: Env)
    requires rid in w.flights && w.flights[rid] == f && f.AwaitPolicy?
    ensures var w' := Close(cfg, w, rid, f, policy, final, error, env);
            Charged(cfg, w, w', env)
  {
    var e := EntryFor(f.req, rid, f.risk, policy, final, None, error, env.ms, None, None, None);
    LogMoves(cfg, w, e, env);
    if env.commits {
      LogRespondBalance(cfg, w, e, env, rid, final);
    }
  }

  lemma AskApprovalLedger(cfg: Config, w: World, rid: Uuid, f: Flight, policy: Evaluation, error: string, aid: Uuid,
                          env: Env)
    requires rid in w.flights && w.flights[rid] == f && f.AwaitPolicy?
    ensures var w' := AskApproval(cfg, w, rid, f, policy, error, aid, env);
            Charged(cfg, w, w', env)
  {
    var h := StoredEvent(cfg, rid, f, aid, env.now);
    var w1 := Note(w.(service := Outbox.Create(cfg.hooks, cfg.net, w.service, aid, NewApprovalFor(rid, f), env.now)),
                   h);
    var e := EntryFor(f.req, rid, f.risk, policy, ApprovalRequired, None, Some(error), env.ms, Some(aid), None, None);
    LogMoves(cfg, w1, e, env);
    ReplayedGrows(w.trace, h);
    if env.commits {
      LogRespondBalance(cfg, w1, e, env, rid, ApprovalRequired);
    }
  }

  lemma RunToolLedger(w: World, rid: Uuid, f: Flight, policy: Evaluation, final: Decision,
                      quota: Option<RateLimit.Quota>, counted: Option<RateLimit.Event>, posture: bool, now: int)
    requires rid in w.flights && w.flights[rid] == f && f.AwaitPolicy?
    ensures var w' := RunTool(w, rid, f, policy, final, quota, counted, posture, now);
            w'.audit == w.audit && w'.limiter == w.limiter && Balance(w') == Balance(w) + 1
  {
    RunningRefits(w.flights, rid, Running(f.req, f.risk, policy, final, quota));
    ReplayedGrows(w.trace, RanFor(rid, f, policy, counted, now));
  }

  lemma ProceedLedger(cfg: Config, w: World, rid: Uuid, f: Flight, policy: Evaluation,
                      counted: Option<RateLimit.Event>, aid: Uuid, posture: bool, env: Env)
    requires rid in w.flights && w.flights[rid] == f && f.AwaitPolicy?
    ensures var w' := Proceed(cfg, w, rid, f, policy, counted, aid, posture, env);
            Charged(cfg, w, w', env)
  {
    var final := FinalDecision(f.req.tool, policy.decision, f.risk.level, cfg.sandboxType);
    match final
    case ApprovalRequired =>
      if cfg.autoApprove && f.risk.level == Low {
        RunToolLedger(w, rid, f, policy, Allow, None, counted, posture, env.now);
      } else {
        AskApprovalLedger(cfg, w, rid, f, policy, "Approval required", aid, env);
      }
    case Allow => RunToolLedger(w, rid, f, policy, Allow, None, counted, posture, env.now);
    case Sandbox => RunToolLedger(w, rid, f, policy, Sandbox, None, counted, posture, env.now);
    case Deny => CloseLedger(cfg, w, rid, f, policy, Deny, None, env);
    case Quarantine => CloseLedger(cfg, w, rid, f, policy, Quarantine, None, env);
  }

  lemma ThrottleLedger(cfg: Config, w: World, rid: Uuid, f: Flight, policy: Evaluation, q: RateLimit.Quota,
                       counted: Option<RateLimit.Event>, aid: Uuid, posture: bool, env: Env)
    requires rid in w.flights && w.flights[rid] == f && f.AwaitPolicy?
    ensures var w' := Throttle(cfg, w, rid, f, policy, q, counted, aid, posture, env);
            Charged(cfg, w, w', env)
  {
    if cfg.mode == "approval_required" {
      AskApprovalLedger(cfg, w, rid, f, policy, QuotaMessage(q), aid, env);
    } else if cfg.mode == "sandbox" {
      RunToolLedger(w, rid, f, policy, Sandbox, Some(q), counted, posture, env.now);
    } else {
      CloseLedger(cfg, w, rid, f, policy, Quarantine, Some(QuotaMessage(q)), env);
    }
  }

  lemma LimitedLedger(cfg: Config, w: World, req: Request, now: int)
    requires QuotaOk(w.limiter.table, w.limiter.next)
    ensures var w' := Limited(cfg, w, req, now).0;
            && QuotaOk(w'.limiter.table, w'.limiter.next) && Balance(w') == Balance(w) - (if cfg.anomaly then 1 else 0)
            && w'.audit == w.audit && w'.flights == w.flights
  {
  }

  lemma JudgeLedger(cfg: Config, w: World, rid: Uuid, reply: Reply, aid: Uuid, posture: bool, env: Env)
    requires rid in w.flights && w.flights[rid].AwaitPolicy? && QuotaOk(w.limiter.table, w.limiter.next)
    ensures Kept(cfg, w, Judge(cfg, w, rid, reply, aid, posture, env), env)
  {
    var f := w.flights[rid];
    var policy := PolicyOf(cfg, f, reply);
    var (w1, q) := Limited(cfg, w, f.req, env.now);
    var counted := CountedAs(cfg, w, f.req, env.now);
    LimitedLedger(cfg, w, f.req, env.now);
    if Blocked(q) {
      ThrottleLedger(cfg, w1, rid, f, policy, q.value, counted, aid, posture, env);
    } else {
      ProceedLedger(cfg, w1, rid, f, policy, counted, aid, posture, env);
    }
  }

  /** A step that neither records nor audits an action. */
  ghost predicate Idle(w: World, w': World) {
    w'.audit == w.audit && w'.limiter == w.limiter && Balance(w') == Balance(w)
  }

  /** A request is noted and takes off. */
  lemma TakeOffLedger(w: World, rid: Uuid, h: Happening, f: Flight)
    requires rid !in w.flights && !f.Running? && (h.Submitted? || h.ReplayChecked?)
    ensures Idle(w, Note(w.(used := w.used + {rid}, flights := w.flights[rid := f]), h))
  {
    var w' := Note(w.(used := w.used + {rid}, flights := w.flights[rid := f]), h);
    assert w'.trace == w.trace + [h] && w'.flights == w.flights[rid := f];
    ReplayedGrows(w.trace, h);
    RunningRefits(w.flights, rid, f);
    assert |RunningOf(w'.flights)| == |RunningOf(w.flights)|;
  }

  lemma RefuseLedger(w: World, rid: Uuid, h: Happening)
    requires rid !in w.flights && h.Submitted?
    ensures var w1 := Note(w.(used := w.used + {rid}), h); Idle(w, w1) && Idle(w, Respond(w1, rid, Deny))
  {
    ReplayedGrows(w.trace, h);
    ReplayedGrows(w.trace + [h], Responded(rid, Deny));
    RunningLands(w.flights, rid);
  }

  lemma SubmitLedger(cfg: Config, w: World, rid: Uuid, req: Request, historyOk: bool)
    requires Capability.WellFormed(cfg.registry) && rid !in w.flights
    ensures Idle(w, Submit(cfg, w, rid, req, historyOk))
  {
    var verdict := Capability.ToolVerdict(cfg.registry, req.agent, req.tool, req.params, cfg.host);
    var h := Submitted(rid, req.agent.id, req.tool, req.params, verdict == Capability.Permit);
    if verdict == Capability.Permit {
      TakeOffLedger(w, rid, h,
                    AwaitPolicy(req, Assess(cfg.profiles, cfg.risk, req, if historyOk then Some(w.audit) else None)));
    } else {
      RefuseLedger(w, rid, h);
    }
  }

  lemma FinishLedger(cfg: Config, w: World, rid: Uuid, result: ToolResult, env: Env)
    requires rid in w.flights && w.flights[rid].Running?
    requires QuotaOk(w.limiter.table, w.limiter.next)
    ensures Kept(cfg, w, Finish(cfg, w, rid, result, env), env)
  {
    var f := w.flights[rid];
    var e := FinishEntry(f, rid, result, env.ms);
    LogMoves(cfg, w, e, env);
    if env.commits {
      LogRespondBalance(cfg, w, e, env, rid, f.final);
    }
  }

  lemma ReplayStartLedger(cfg: Config, w: World, rid: Uuid, aid: Uuid, historyOk: bool, env: Env)
    requires rid !in w.flights
    ensures Idle(w, ReplayStart(cfg, w, rid, aid, historyOk, env))
  {
    if Replayable(w.service, aid, env.now) {
      var a := w.service.approvals[aid];
      var req := ReplayRequest(a);
      var risk := Assess(cfg.profiles, cfg.risk, req, if historyOk then Some(w.audit) else None);
      TakeOffLedger(w, rid, ReplayChecked(rid, aid, env.now), AwaitReplayPolicy(aid, req, risk, a.review.approverId));
    }
  }

  lemma RunReplayLedger(w: World, rid: Uuid, f: Flight, policy: Evaluation, posture: bool, now: int)
    requires rid in w.flights && w.flights[rid] == f && f.AwaitReplayPolicy?
    ensures Idle(w, RunReplay(w, rid, f, policy, posture, now))
  {
    RunningRefits(w.flights, rid, RunningReplay(f.approvalId, f.req, f.risk, policy, f.approver));
    ReplayedGrows(w.trace,
                  RanAgain(rid, f, policy, now));
  }

  /** Auditing a replay: one more row, and one more completed replay. */
  lemma ReplayFinishLedger(cfg: Config, w: World, rid: Uuid, result: ToolResult, env: Env)
    requires rid in w.flights && w.flights[rid].RunningReplay?
    requires QuotaOk(w.limiter.table, w.limiter.next)
    ensures Kept(cfg, w, ReplayFinish(cfg, w, rid, result, env), env)
  {
    var f := w.flights[rid];
    var e := ReplayEntry(f, rid, result, env.ms);
    LogMoves(cfg, w, e, env);
    RunningLands(w.flights, rid);
    ReplayedGrows(w.trace, ReplayDone(rid));
    ReplayedGrows(w.trace + [ReplayDone(rid)], Responded(rid, Allow));
  }

  lemma ServiceLedger(cfg: Config, w: World, step: Step, env: Env)
    requires Capability.WellFormed(cfg.registry) && Enabled(w, step)
             && (step.DoReview? || step.DoRetry? || step.DoDrain?)
    ensures Idle(w, Next(cfg, w, step, env))
  {
    if step.DoReview? {
      ReplayedGrows(w.trace, Reviewed(step.aid, step.approved));
    } else if step.DoRetry? {
      ReplayedGrows(w.trace, Retried(step.aid));
    }
  }

  lemma EffectLedger(cfg: Config, w: World, step: Step, env: Env)
    requires Capability.WellFormed(cfg.registry) && Enabled(w, step) && QuotaOk(w.limiter.table, w.limiter.next)
    requires forall rid | rid in w.flights :: rid in w.used
    ensures Kept(cfg, w, Next(cfg, w, step, env), env)
  {
    match step
    case DoSubmit(rid, req, historyOk) => SubmitLedger(cfg, w, rid, req, historyOk);
    case DoJudge(rid, reply, aid, posture) => JudgeLedger(cfg, w, rid, reply, aid, posture, env);
    case DoFinish(rid, result) => FinishLedger(cfg, w, rid, result, env);
    case DoReplayStart(rid, aid, historyOk) => ReplayStartLedger(cfg, w, rid, aid, historyOk, env);
    case DoReplayRun(rid, reply, posture) =>
      RunReplayLedger(w, rid, w.flights[rid], PolicyOf(cfg, w.flights[rid], reply), posture, env.now);
    case DoReplayFinish(rid, result) => ReplayFinishLedger(cfg, w, rid, result, env);
    case _ => ServiceLedger(cfg, w, step, env);
  }

  // ---------- every run ----------

  function Stamps(steps: seq<(Step, Env)>, k: nat): set<int>
    requires k <= |steps|
  {
    set j | 0 <= j < k :: steps[j].1.now
  }

  /** What holds of the books of a world after these stamps. */
  ghost predicate BooksOk(w: World, stamps: set<int>) {
    LogOk(w.audit, stamps) && QuotaOk(w.limiter.table, w.limiter.next)
  }

  lemma StartBooks()
    ensures BooksOk(START, {}) && Balance(START) == 0
  {
    assert RunningOf(map[]) == {};
  }

  lemma StepBooks(cfg: Config, worlds: seq<World>, steps: seq<(Step, Env)>, k: nat, stamps: set<int>)
    requires IsRun(cfg, worlds, steps) && k < |steps| && BooksOk(worlds[k], stamps)
    ensures BooksOk(worlds[k + 1], stamps + {steps[k].1.now})
    ensures Moved(cfg, worlds[k].audit, worlds[k + 1].audit, steps[k].1)
    ensures cfg.anomaly && steps[k].1.commits ==> Balance(worlds[k + 1]) == Balance(worlds[k])
  {
    RunKeeps(cfg, worlds, steps, k);
    EffectLedger(cfg, worlds[k], steps[k].0, steps[k].1);
    MoveKeepsLog(cfg, worlds[k].audit, worlds[k + 1].audit, steps[k].1, stamps);
  }

  lemma StampsGrow(steps: seq<(Step, Env)>, k: nat)
    requires k < |steps|
    ensures Stamps(steps, k + 1) == Stamps(steps, k) + {steps[k].1.now}
  {
  }

  lemma {:induction false} RunBooks(cfg: Config, worlds: seq<World>, steps: seq<(Step, Env)>, k: nat)
    requires IsRun(cfg, worlds, steps) && k <= |steps|
    ensures BooksOk(worlds[k], Stamps(steps, k))
    ensures k > 0 ==> Moved(cfg, worlds[k - 1].audit, worlds[k].audit, steps[k - 1].1)
    ensures cfg.anomaly && (forall j | 0 <= j < k :: steps[j].1.commits) ==> Balance(worlds[k]) == 0
  {
    if k == 0 {
      StartBooks();
    } else {
      RunBooks(cfg, worlds, steps, k - 1);
      StepBooks(cfg, worlds, steps, k - 1, Stamps(steps, k - 1));
      StampsGrow(steps, k - 1);
    }
  }

  /** For any clock, the audit log stays ordered by its stamps and no row is ever lost or altered. */
  lemma {:induction false} RowsStay(cfg: Config, worlds: seq<World>, steps: seq<(Step, Env)>, j: nat, k: nat)
    requires IsRun(cfg, worlds, steps) && j <= k <= |steps|
    ensures AuditChain.InOrder(worlds[k].audit) && forall r | r in worlds[j].audit :: r in worlds[k].audit
    decreases k
  {
    RunBooks(cfg, worlds, steps, k);
    if j == k {
    } else {
      RunBooks(cfg, worlds, steps, k - 1);
      RowsStay(cfg, worlds, steps, j, k - 1);
      MoveKeepsLog(cfg, worlds[k - 1].audit, worlds[k].audit, steps[k - 1].1, Stamps(steps, k - 1));
    }
  }

  /** Each reading of the clock is later than those before it. */
  ghost predicate Increasing(steps: seq<(Step, Env)>) {
    forall i, j | 0 <= i < j < |steps| :: steps[i].1.now < steps[j].1.now
  }

  /** With an increasing clock the audit log verifies after every run, whichever commits failed, and every
      earlier log is a prefix of it. */
  lemma {:induction false} AuditAlwaysVerifies(cfg: Config, worlds: seq<World>, steps: seq<(Step, Env)>, j: nat, k: nat)
    requires IsRun(cfg, worlds, steps) && j <= k <= |steps| && Increasing(steps)
    ensures AuditChain.Intact(cfg.H, worlds[k].audit) && worlds[j].audit <= worlds[k].audit
    decreases k
  {
    if k == 0 {
    } else {
      AuditAlwaysVerifies(cfg, worlds, steps, if j < k then j else j - 1, k - 1);
      RunBooks(cfg, worlds, steps, k - 1);
      RunBooks(cfg, worlds, steps, k);
      LatestKeepsChain(cfg, worlds[k - 1].audit, worlds[k].audit, steps[k - 1].1, Stamps(steps, k - 1));
    }
  }

  /** The audit log after each step. */
  function LogsOf(worlds: seq<World>): (logs: seq<Rows>)
    ensures |logs| == |worlds| && forall j | 0 <= j < |logs| :: logs[j] == worlds[j].audit
  {
    seq(|worlds|, j requires 0 <= j < |worlds| => worlds[j].audit)
  }

  /** For any clock and whichever commits failed, the audit log verifies after a run if and only if each of
      its rows was put last when it was committed, up to a collision. */
  lemma AuditVerifiesIffAppended(cfg: Config, worlds: seq<World>, steps: seq<(Step, Env)>, k: nat)
    returns (a: nat, b: nat)
    requires IsRun(cfg, worlds, steps) && k <= |steps|
    ensures AuditChain.AppendsTo(cfg.H, LogsOf(worlds), k) ==> AuditChain.Intact(cfg.H, worlds[k].audit)
    ensures AuditChain.Intact(cfg.H, worlds[k].audit) && !AuditChain.AppendsTo(cfg.H, LogsOf(worlds), k) ==>
              AuditChain.CollidesAt(cfg.H, worlds[k].audit, a, b)
  {
    forall j | 0 <= j < k ensures AuditChain.GrowsAt(cfg.H, LogsOf(worlds), j) {
      RunBooks(cfg, worlds, steps, j + 1);
      MoveGrows(cfg, worlds[j].audit, worlds[j + 1].audit, steps[j].1);
    }
    a, b := AuditChain.VerifiesIffAppended(cfg.H, LogsOf(worlds), k);
  }

  lemma MoveGrows(cfg: Config, before: Rows, after: Rows, env: Env)
    requires Moved(cfg, before, after, env)
    ensures AuditChain.Grows(cfg.H, before, after)
  {
    if after != before {
      var e :| after == AuditChain.Logged(cfg.H, before, e, env.now, env.tie);
      assert AuditChain.Spot(before, env.now, env.tie) <= |before|;
    }
  }

  /** Conservation of actions. With anomaly detection on and no failed audit commit, every audit row is
      the record of one recorded action or of one completed replay: their numbers agree after every run,
      up to the actions whose tool is still running. */
  lemma ActionsConserved(cfg: Config, worlds: seq<World>, steps: seq<(Step, Env)>, k: nat)
    requires IsRun(cfg, worlds, steps) && k <= |steps|
    requires cfg.anomaly && forall j | 0 <= j < k :: steps[j].1.commits
    ensures |worlds[k].audit| + |RunningOf(worlds[k].flights)|
            == |worlds[k].limiter.table| + TallyOf(worlds[k].trace).replayed
  {
    RunBooks(cfg, worlds, steps, k);
  }
}
