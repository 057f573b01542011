/** Replays at the moment they run: what the kernel's check guarantees after the wait that follows it, and
    what it does not. */
module KernelReplays {
  import opened Base
  import opened Risk
  import opened Policy
  import opened KernelSpec
  import opened KernelHistory
  import RateLimit
  import Capability

  // ---------- an approval that stands ----------

  /** By the history so far the approval stands at time now: it was stored, its latest decision is to
      approve, and its expiry period is not over. Runs of its tool play no part. */
  ghost predicate StandsAt(cfg: Config, tr: Trace, aid: Uuid, now: int) {
    LatestReview(tr, aid) == Some(true) && exists a :: InTime(cfg, tr, a, aid, now)
  }

  ghost predicate InTime(cfg: Config, tr: Trace, a: int, aid: Uuid, now: int) {
    && 0 <= a < |tr| && tr[a].ApprovalStored? && tr[a].approvalId == aid
    && (cfg.hooks.expireMinutes > 0 ==> now < tr[a].at + 60 * cfg.hooks.expireMinutes)
  }

  lemma OneStore(cfg: Config, tr: Trace, a: nat, b: nat)
    requires TraceOk(cfg, tr) && a < |tr| && b < |tr| && tr[a].ApprovalStored? && tr[b].ApprovalStored?
    requires tr[a].approvalId == tr[b].approvalId
    ensures a == b
  {
    if a < b {
      StoredTwice(cfg, tr, a, b);
    } else if b < a {
      StoredTwice(cfg, tr, b, a);
    }
  }

  lemma RowInTime(cfg: Config, w: World, a: nat, aid: Uuid, now: int)
    requires WorldInv(cfg, w) && a < |w.trace| && w.trace[a].ApprovalStored? && w.trace[a].approvalId == aid
    ensures aid in w.service.approvals
    ensures var e := w.service.approvals[aid].subject.expiresAt;
            InTime(cfg, w.trace, a, aid, now) <==> (e.Some? ==> e.value > now)
  {
    assert aid in w.service.approvals;
    var b :| 0 <= b < |w.trace| && w.trace[b] == StoredFor(w.service.approvals[aid]);
    OneStore(cfg, w.trace, a, b);
    assert HappeningOk(cfg, w.trace[..a], w.trace[a]);
  }

  /** The guard of replay_approved says exactly that the approval stands. */
  lemma ReplayableIffStands(cfg: Config, w: World, aid: Uuid, now: int)
    requires WorldInv(cfg, w)
    ensures Replayable(w.service, aid, now) <==> StandsAt(cfg, w.trace, aid, now)
  {
    if Replayable(w.service, aid, now) {
      var a :| 0 <= a < |w.trace| && w.trace[a] == StoredFor(w.service.approvals[aid]);
      RowInTime(cfg, w, a, aid, now);
    }
    if StandsAt(cfg, w.trace, aid, now) {
      var a :| InTime(cfg, w.trace, a, aid, now);
      RowInTime(cfg, w, a, aid, now);
    }
  }

  // ---------- what a step adds to the trace ----------

  /** The trace goes on without a decision and without a replayed tool run. */
  ghost predicate Plain(tr: Trace, tr': Trace) {
    tr <= tr' && forall i | |tr| <= i < |tr'| :: !tr'[i].Reviewed? && !(tr'[i].Ran? && tr'[i].via.ByReplay?)
  }

  lemma AnswersArePlain(cfg: Config, w: World, rid: Uuid, f: Flight, policy: Evaluation, final: Decision,
                        error: Option<string>, text: string, aid: Uuid, env: Env)
    requires f.AwaitPolicy?
    ensures Plain(w.trace, AskApproval(cfg, w, rid, f, policy, text, aid, env).trace)
    ensures Plain(w.trace, Close(cfg, w, rid, f, policy, final, error, env).trace)
  {
  }

  lemma RunToolIsPlain(w: World, rid: Uuid, f: Flight, policy: Evaluation, final: Decision,
                       quota: Option<RateLimit.Quota>, counted: Option<RateLimit.Event>, posture: bool, now: int)
    requires f.AwaitPolicy?
    ensures Plain(w.trace, RunTool(w, rid, f, policy, final, quota, counted, posture, now).trace)
  {
  }

  lemma ThrottleIsPlain(cfg: Config, w: World, rid: Uuid, f: Flight, policy: Evaluation, q: RateLimit.Quota,
                        counted: Option<RateLimit.Event>, aid: Uuid, posture: bool, env: Env)
    requires f.AwaitPolicy?
    ensures Plain(w.trace, Throttle(cfg, w, rid, f, policy, q, counted, aid, posture, env).trace)
  {
    AnswersArePlain(cfg, w, rid, f, policy, Quarantine, Some(QuotaMessage(q)), QuotaMessage(q), aid, env);
    RunToolIsPlain(w, rid, f, policy, Sandbox, Some(q), counted, posture, env.now);
  }

  lemma ProceedIsPlain(cfg: Config, w: World, rid: Uuid, f: Flight, policy: Evaluation,
                       counted: Option<RateLimit.Event>, aid: Uuid, posture: bool, env: Env)
    requires f.AwaitPolicy?
    ensures Plain(w.trace, Proceed(cfg, w, rid, f, policy, counted, aid, posture, env).trace)
  {
    var final := FinalDecision(f.req.tool, policy.decision, f.risk.level, cfg.sandboxType);
    AnswersArePlain(cfg, w, rid, f, policy, final, None, "Approval required", aid, env);
    RunToolIsPlain(w, rid, f, policy, if final == Sandbox then Sandbox else Allow, None, counted, posture, env.now);
  }

  lemma JudgeIsPlain(cfg: Config, w: World, rid: Uuid, reply: Reply, aid: Uuid, posture: bool, env: Env)
    requires rid in w.flights && w.flights[rid].AwaitPolicy?
    ensures Plain(w.trace, Judge(cfg, w, rid, reply, aid, posture, env).trace)
  {
    var f := w.flights[rid];
    var policy := PolicyOf(cfg, f, reply);
    var (w1, q) := Limited(cfg, w, f.req, env.now);
    var counted := CountedAs(cfg, w, f.req, env.now);
    if Blocked(q) {
      ThrottleIsPlain(cfg, w1, rid, f, policy, q.value, counted, aid, posture, env);
    } else {
      ProceedIsPlain(cfg, w1, rid, f, policy, counted, aid, posture, env);
    }
  }

  lemma FinishIsPlain(cfg: Config, w: World, rid: Uuid, result: ToolResult, env: Env)
    requires rid in w.flights
    ensures w.flights[rid].Running? ==> Plain(w.trace, Finish(cfg, w, rid, result, env).trace)
    ensures w.flights[rid].RunningReplay? ==> Plain(w.trace, ReplayFinish(cfg, w, rid, result, env).trace)
  {
  }

  lemma SubmitIsPlain(cfg: Config, w: World, rid: Uuid, req: Request, historyOk: bool)
    requires Capability.WellFormed(cfg.registry)
    ensures Plain(w.trace, Submit(cfg, w, rid, req, historyOk).trace)
  {
  }

  lemma ReplayStartIsPlain(cfg: Config, w: World, rid: Uuid, aid: Uuid, historyOk: bool, env: Env)
    ensures var tr' := ReplayStart(cfg, w, rid, aid, historyOk, env).trace;
            && Plain(w.trace, tr')
            && tr' == w.trace + if Replayable(w.service, aid, env.now) then [ReplayChecked(rid, aid, env.now)] else []
  {
  }

  /** A decision enters the trace only by a review of its approval, and a replayed run only by the step in
      which a replay goes on from its wait. */
  lemma StepAdds(cfg: Config, w: World, step: Step, env: Env)
    requires Capability.WellFormed(cfg.registry) && Enabled(w, step)
    ensures var tr' := Next(cfg, w, step, env).trace;
            match step
            case DoReview(aid, approved, _, _) => tr' == w.trace || tr' == w.trace + [Reviewed(aid, approved)]
            case DoReplayRun(rid, reply, posture) =>
              var f := w.flights[rid];
              var policy := PolicyOf(cfg, f, reply);
              tr' == if !Dispatches(ForcedDecision(f.req.tool), f.req.tool, posture) then w.trace
                     else w.trace + [RanAgain(rid, f, policy, env.now)]
            case _ => Plain(w.trace, tr')
  {
    match step
    case DoSubmit(rid, req, historyOk) => SubmitIsPlain(cfg, w, rid, req, historyOk);
    case DoJudge(rid, reply, aid, posture) => JudgeIsPlain(cfg, w, rid, reply, aid, posture, env);
    case DoFinish(rid, result) => FinishIsPlain(cfg, w, rid, result, env);
    case DoReplayStart(rid, aid, historyOk) => ReplayStartIsPlain(cfg, w, rid, aid, historyOk, env);
    case DoReplayFinish(rid, result) => FinishIsPlain(cfg, w, rid, result, env);
    case _ =>
  }

  // ---------- decisions survive everything but decisions ----------

  lemma {:induction false} PlainKeepsReview(tr: Trace, tr': Trace, aid: Uuid)
    requires tr <= tr'
    requires forall i | |tr| <= i < |tr'| :: tr'[i].Reviewed? ==> tr'[i].approvalId != aid
    ensures LatestReview(tr', aid) == LatestReview(tr, aid)
    decreases |tr'|
  {
    if |tr| < |tr'| {
      PlainKeepsReview(tr, tr'[..|tr'| - 1], aid);
    } else {
      assert tr' == tr;
    }
  }

  /** The trace goes on without storing or deciding this approval. */
  ghost predicate Leaves(tr: Trace, tr': Trace, aid: Uuid) {
    && tr <= tr'
    && forall i | |tr| <= i < |tr'| :: (tr'[i].Reviewed? || tr'[i].ApprovalStored?) ==> tr'[i].approvalId != aid
  }

  lemma StandsOn(cfg: Config, tr: Trace, tr': Trace, aid: Uuid, now: int)
    requires Leaves(tr, tr', aid)
    ensures StandsAt(cfg, tr', aid, now) <==> StandsAt(cfg, tr, aid, now)
  {
    PlainKeepsReview(tr, tr', aid);
    forall a ensures InTime(cfg, tr', a, aid, now) <==> InTime(cfg, tr, a, aid, now) {
    }
  }

  lemma GrownLeaves(cfg: Config, w: World, w': World, aid: Uuid)
    requires WorldInv(cfg, w) && WorldInv(cfg, w') && aid in w.service.approvals && w.trace <= w'.trace
    requires forall i | |w.trace| <= i < |w'.trace| :: w'.trace[i].Reviewed? ==> w'.trace[i].approvalId != aid
    ensures Leaves(w.trace, w'.trace, aid) && aid in w'.service.approvals
  {
    var a :| 0 <= a < |w.trace| && w.trace[a] == StoredFor(w.service.approvals[aid]);
    assert w'.trace[a] == w.trace[a];
    forall i | |w.trace| <= i < |w'.trace| && w'.trace[i].ApprovalStored? ensures w'.trace[i].approvalId != aid {
      StoredTwice(cfg, w'.trace, a, i);
    }
  }

  lemma StepExtends(cfg: Config, w: World, step: Step, env: Env, aid: Uuid)
    requires Capability.WellFormed(cfg.registry) && Enabled(w, step) && !(step.DoReview? && step.aid == aid)
    ensures var tr' := Next(cfg, w, step, env).trace;
            w.trace <= tr' && forall i | |w.trace| <= i < |tr'| :: tr'[i].Reviewed? ==> tr'[i].approvalId != aid
  {
    StepAdds(cfg, w, step, env);
  }

  lemma StepLeaves(cfg: Config, w: World, step: Step, env: Env, aid: Uuid)
    requires Capability.WellFormed(cfg.registry) && Enabled(w, step) && WorldInv(cfg, w)
    requires aid in w.service.approvals && !(step.DoReview? && step.aid == aid)
    ensures Leaves(w.trace, Next(cfg, w, step, env).trace, aid) && aid in Next(cfg, w, step, env).service.approvals
  {
    StepKeeps(cfg, w, step, env);
    StepExtends(cfg, w, step, env, aid);
    GrownLeaves(cfg, w, Next(cfg, w, step, env), aid);
  }

  /** A replay does not use its approval up: whatever happens between two moments of a run, replays of the
      approval included, it can be replayed at the later one exactly if it could at the earlier one, as
      long as nobody decides it again. */
  lemma {:induction false} ReplayableUntilReviewed(cfg: Config, worlds: seq<World>, steps: seq<(Step, Env)>, j: nat,
                                                   k: nat,
                                                   aid: Uuid, now: int)
    requires IsRun(cfg, worlds, steps) && j <= k <= |steps| && aid in worlds[j].service.approvals
    requires forall i | j <= i < k :: !(steps[i].0.DoReview? && steps[i].0.aid == aid)
    ensures aid in worlds[k].service.approvals
    ensures Replayable(worlds[k].service, aid, now) <==> Replayable(worlds[j].service, aid, now)
    decreases k - j
  {
    if j == k {
    } else {
      ReplayableUntilReviewed(cfg, worlds, steps, j, k - 1, aid, now);
      RunKeeps(cfg, worlds, steps, k - 1);
      LeavesReplayable(cfg, worlds[k - 1], steps[k - 1].0, steps[k - 1].1, aid, now);
    }
  }

  lemma LeavesReplayable(cfg: Config, w: World, step: Step, env: Env, aid: Uuid, now: int)
    requires Capability.WellFormed(cfg.registry) && Enabled(w, step) && WorldInv(cfg, w)
    requires aid in w.service.approvals && !(step.DoReview? && step.aid == aid)
    ensures var w' := Next(cfg, w, step, env);
            aid in w'.service.approvals && (Replayable(w'.service, aid, now) <==> Replayable(w.service, aid, now))
  {
    var w' := Next(cfg, w, step, env);
    StepKeeps(cfg, w, step, env);
    StepLeaves(cfg, w, step, env, aid);
    StandsOn(cfg, w.trace, w'.trace, aid, now);
    ReplayableIffStands(cfg, w, aid, now);
    ReplayableIffStands(cfg, w', aid, now);
  }

  /** A replay starts if and only if its approval stands by the history, whatever has run before. */
  lemma ReplayStartsIffStands(cfg: Config, worlds: seq<World>, steps: seq<(Step, Env)>, n: nat)
    requires IsRun(cfg, worlds, steps) && n < |steps| && steps[n].0.DoReplayStart?
    ensures var (rid, aid, now) := (steps[n].0.rid, steps[n].0.aid, steps[n].1.now);
            && (rid in worlds[n + 1].flights <==> StandsAt(cfg, worlds[n].trace, aid, now))
            && worlds[n + 1].trace
               == worlds[n].trace
                  + if StandsAt(cfg, worlds[n].trace, aid, now) then [ReplayChecked(rid, aid, now)] else []
  {
    RunKeeps(cfg, worlds, steps, n);
    ReplayableIffStands(cfg, worlds[n], steps[n].0.aid, steps[n].1.now);
    ReplayStartIsPlain(cfg, worlds[n], steps[n].0.rid, steps[n].0.aid, steps[n].0.historyOk, steps[n].1);
  }

  // ---------- at the run of a replay ----------

  /** The trace grows, by a replayed tool run only if a replay goes on from its wait. */
  ghost predicate RunsOnly(tr: Trace, tr': Trace, step: Step, env: Env) {
    && tr <= tr'
    && forall k | |tr| <= k < |tr'| && tr'[k].Ran? && tr'[k].via.ByReplay? ::
         step.DoReplayRun? && k == |tr| && tr'[k].at == env.now
  }

  lemma StepRunsOnly(cfg: Config, w: World, step: Step, env: Env)
    requires Capability.WellFormed(cfg.registry) && Enabled(w, step)
    ensures RunsOnly(w.trace, Next(cfg, w, step, env).trace, step, env)
  {
    StepAdds(cfg, w, step, env);
  }

  ghost predicate RunsOnlyTo(worlds: seq<World>, steps: seq<(Step, Env)>, m: nat)
    requires m <= |steps| < |worlds|
  {
    && worlds[0].trace == []
    && forall j | 0 <= j < m :: RunsOnly(worlds[j].trace, worlds[j + 1].trace, steps[j].0, steps[j].1)
  }

  lemma {:induction false} RunRunsOnly(cfg: Config, worlds: seq<World>, steps: seq<(Step, Env)>, m: nat)
    requires IsRun(cfg, worlds, steps) && m <= |steps|
    ensures RunsOnlyTo(worlds, steps, m)
  {
    if m == 0 {
    } else {
      RunRunsOnly(cfg, worlds, steps, m - 1);
      StepRunsOnly(cfg, worlds[m - 1], steps[m - 1].0, steps[m - 1].1);
    }
  }

  /** Every replayed tool run happens in the step of its replay that follows the wait. */
  lemma {:induction false} ReplayRunStep(worlds: seq<World>, steps: seq<(Step, Env)>, m: nat, k: nat) returns (n: nat)
    requires m <= |steps| < |worlds| && RunsOnlyTo(worlds, steps, m)
    requires k < |worlds[m].trace| && worlds[m].trace[k].Ran? && worlds[m].trace[k].via.ByReplay?
    ensures n < m && steps[n].0.DoReplayRun? && worlds[n].trace == worlds[m].trace[..k]
    ensures worlds[m].trace[k].at == steps[n].1.now
  {
    assert RunsOnly(worlds[m - 1].trace, worlds[m].trace, steps[m - 1].0, steps[m - 1].1);
    if k < |worlds[m - 1].trace| {
      n := ReplayRunStep(worlds, steps, m - 1, k);
    } else {
      n := m - 1;
    }
  }

  /** History safety at the run itself. A gated tool runs, with auto-approval off and the mode not sandbox,
      only as an accounted replay; and at that moment its latest decision is to approve and its expiry
      period is not over if and only if the guard of replay_approved still holds then, that is, if it were
      evaluated once more after the wait. */
  lemma SafeAtRunIffStillReplayable(cfg: Config, worlds: seq<World>, steps: seq<(Step, Env)>, m: nat, k: nat)
    returns (s: nat, a: nat, c: nat, n: nat)
    requires IsRun(cfg, worlds, steps) && m <= |steps| && k < |worlds[m].trace| && worlds[m].trace[k].Ran?
    requires worlds[m].trace[k].via.ByReplay?
             || (!cfg.autoApprove && cfg.mode != "sandbox" && worlds[m].trace[k].tool in GATED_TOOLS)
    ensures Accounted(cfg, worlds[m].trace, s, a, c, k)
    ensures n < m && steps[n].0.DoReplayRun? && worlds[n].trace == worlds[m].trace[..k]
    ensures var (tr, run) := (worlds[m].trace, worlds[m].trace[k]);
            && run.at == steps[n].1.now
            && (LatestReview(tr[..k], run.via.approvalId) == Some(true)
                && (cfg.hooks.expireMinutes > 0 ==> run.at < tr[a].at + 60 * cfg.hooks.expireMinutes)
                <==> Replayable(worlds[n].service, run.via.approvalId, steps[n].1.now))
  {
    RunKeeps(cfg, worlds, steps, m);
    EveryRunJustified(cfg, worlds, steps, m, k);
    s, a, c := ReplayIsAccounted(cfg, worlds[m].trace, k);
    RunRunsOnly(cfg, worlds, steps, m);
    n := ReplayRunStep(worlds, steps, m, k);
    RunKeeps(cfg, worlds, steps, n);
    var (aid, now) := (worlds[m].trace[k].via.approvalId, steps[n].1.now);
    ReplayableIffStands(cfg, worlds[n], aid, now);
    StandsThrough(cfg, worlds[m].trace, s, a, c, k, now);
  }

  lemma StandsThrough(cfg: Config, tr: Trace, s: nat, a: nat, c: nat, k: nat, now: int)
    requires Accounted(cfg, tr, s, a, c, k)
    ensures StandsAt(cfg, tr[..k], tr[k].via.approvalId, now)
            <==> LatestReview(tr[..k], tr[k].via.approvalId) == Some(true)
                 && (cfg.hooks.expireMinutes > 0 ==> now < tr[a].at + 60 * cfg.hooks.expireMinutes)
  {
    var aid := tr[k].via.approvalId;
    assert tr[..k][a] == tr[a];
    forall b | InTime(cfg, tr[..k], b, aid, now) ensures b == a {
      assert tr[b].ApprovalStored? && tr[b].approvalId == aid;
    }
    if cfg.hooks.expireMinutes > 0 ==> now < tr[a].at + 60 * cfg.hooks.expireMinutes {
      assert InTime(cfg, tr[..k], a, aid, now);
    }
  }
}
