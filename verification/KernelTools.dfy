/** Where a request is once its tool was called: it is under way until it is answered, and it is not one
    that the capability check refused. */
module KernelTools {
  import opened Base
  import opened Risk
  import opened Policy
  import opened KernelSpec
  import opened KernelHistory
  import RateLimit
  import Capability

  /** The tool of this request has been called. */
  predicate Called(f: Flight) {
    f.Running? || f.RunningReplay?
  }

  ghost predicate WasAnswered(tr: Trace, rid: Uuid) {
    exists i :: 0 <= i < |tr| && tr[i].Responded? && tr[i].rid == rid
  }

  /** The capability check refused the request, or raised. */
  ghost predicate WasRefused(tr: Trace, rid: Uuid) {
    exists k :: 0 <= k < |tr| && tr[k].Submitted? && tr[k].rid == rid && !tr[k].passed
  }

  ghost predicate HasRun(tr: Trace, rid: Uuid) {
    exists k :: 0 <= k < |tr| && tr[k].Ran? && tr[k].rid == rid
  }

  ghost predicate TrackedIn(tr: Trace, flights: map<Uuid, Flight>, used: set<Uuid>) {
    && (forall rid | WasRefused(tr, rid) :: rid in used && rid !in flights)
    && (forall rid | HasRun(tr, rid) ::
          rid in used && !WasRefused(tr, rid) && if rid in flights then Called(flights[rid]) else WasAnswered(tr, rid))
  }

  ghost predicate Tracked(w: World) {
    TrackedIn(w.trace, w.flights, w.used)
  }

  // ---------- growing traces ----------

  lemma FactsGrow(tr: Trace, h: Happening, rid: Uuid)
    ensures WasAnswered(tr + [h], rid) <==> WasAnswered(tr, rid) || (h.Responded? && h.rid == rid)
    ensures WasRefused(tr + [h], rid) <==> WasRefused(tr, rid) || (h.Submitted? && h.rid == rid && !h.passed)
    ensures HasRun(tr + [h], rid) <==> HasRun(tr, rid) || (h.Ran? && h.rid == rid)
  {
    assert (tr + [h])[|tr|] == h;
    assert forall k | 0 <= k < |tr| :: (tr + [h])[k] == tr[k];
  }

  /** A tool may only be noted as run for a request whose tool is being called, and a refusal only for one
      that has just been submitted. */
  lemma NoteTracked(w: World, h: Happening)
    requires Tracked(w)
    requires h.Ran? ==> h.rid in w.flights && Called(w.flights[h.rid]) && h.rid in w.used
    requires h.Submitted? && !h.passed ==> h.rid in w.used && h.rid !in w.flights && !HasRun(w.trace, h.rid)
    ensures Tracked(Note(w, h))
  {
    forall rid {
      FactsGrow(w.trace, h, rid);
    }
  }

  lemma RespondTracked(w: World, rid: Uuid, d: Decision)
    requires Tracked(w)
    ensures Tracked(Respond(w, rid, d))
  {
    forall r {
      FactsGrow(w.trace, Responded(rid, d), r);
    }
  }

  /** A fresh request takes off, or one whose tool has not been called goes on. */
  lemma FlyTracked(w: World, rid: Uuid, f: Flight)
    requires Tracked(w)
    requires if rid in w.flights then !Called(w.flights[rid]) else rid !in w.used
    ensures Tracked(w.(used := w.used + {rid}, flights := w.flights[rid := f]))
    ensures rid in w.flights ==> Tracked(w.(flights := w.flights[rid := f]))
    ensures !HasRun(w.trace, rid)
  {
  }

  // ---------- the steps ----------

  lemma SubmitTracked(cfg: Config, w: World, rid: Uuid, req: Request, historyOk: bool)
    requires Capability.WellFormed(cfg.registry) && Tracked(w) && rid !in w.used && rid !in w.flights
    ensures Tracked(Submit(cfg, w, rid, req, historyOk))
  {
    var verdict := Capability.ToolVerdict(cfg.registry, req.agent, req.tool, req.params, cfg.host);
    var h := Submitted(rid, req.agent.id, req.tool, req.params, verdict == Capability.Permit);
    var f := AwaitPolicy(req, Assess(cfg.profiles, cfg.risk, req, if historyOk then Some(w.audit) else None));
    FlyTracked(w, rid, f);
    if verdict == Capability.Permit {
      NoteTracked(w.(used := w.used + {rid}, flights := w.flights[rid := f]), h);
    } else {
      var w1 := w.(used := w.used + {rid});
      assert Tracked(w1);
      NoteTracked(w1, h);
      RespondTracked(Note(w1, h), rid, Deny);
    }
  }

  lemma AskApprovalTracked(cfg: Config, w: World, rid: Uuid, f: Flight, policy: Evaluation, error: string, aid: Uuid,
                           env: Env)
    requires Tracked(w) && f.AwaitPolicy?
    ensures Tracked(AskApproval(cfg, w, rid, f, policy, error, aid, env))
  {
    var h := StoredEvent(cfg, rid, f, aid, env.now);
    NoteTracked(w, h);
    RespondTracked(Note(w, h), rid, ApprovalRequired);
  }

  lemma RunToolTracked(w: World, rid: Uuid, f: Flight, policy: Evaluation, final: Decision,
                       quota: Option<RateLimit.Quota>, counted: Option<RateLimit.Event>, posture: bool, now: int)
    requires Tracked(w) && rid in w.flights && rid in w.used && w.flights[rid] == f && f.AwaitPolicy?
    ensures Tracked(RunTool(w, rid, f, policy, final, quota, counted, posture, now))
  {
    var g := Running(f.req, f.risk, policy, final, quota);
    FlyTracked(w, rid, g);
    NoteTracked(w.(flights := w.flights[rid := g]),
                RanFor(rid, f, policy, counted, now));
  }

  lemma CloseTracked(cfg: Config, w: World, rid: Uuid, f: Flight, policy: Evaluation, final: Decision,
                     error: Option<string>, env: Env)
    requires Tracked(w) && f.AwaitPolicy?
    ensures Tracked(Close(cfg, w, rid, f, policy, final, error, env))
  {
    RespondTracked(w, rid, final);
  }

  lemma ProceedTracked(cfg: Config, w: World, rid: Uuid, f: Flight, policy: Evaluation,
                       counted: Option<RateLimit.Event>, aid: Uuid, posture: bool, env: Env)
    requires Tracked(w) && rid in w.flights && rid in w.used && w.flights[rid] == f && f.AwaitPolicy?
    ensures Tracked(Proceed(cfg, w, rid, f, policy, counted, aid, posture, env))
  {
    var final := FinalDecision(f.req.tool, policy.decision, f.risk.level, cfg.sandboxType);
    AskApprovalTracked(cfg, w, rid, f, policy, "Approval required", aid, env);
    CloseTracked(cfg, w, rid, f, policy, final, None, env);
    RunToolTracked(w, rid, f, policy, if final == Sandbox then Sandbox else Allow, None, counted, posture, env.now);
  }

  lemma ThrottleTracked(cfg: Config, w: World, rid: Uuid, f: Flight, policy: Evaluation, q: RateLimit.Quota,
                        counted: Option<RateLimit.Event>, aid: Uuid, posture: bool, env: Env)
    requires Tracked(w) && rid in w.flights && rid in w.used && w.flights[rid] == f && f.AwaitPolicy?
    ensures Tracked(Throttle(cfg, w, rid, f, policy, q, counted, aid, posture, env))
  {
    AskApprovalTracked(cfg, w, rid, f, policy, QuotaMessage(q), aid, env);
    CloseTracked(cfg, w, rid, f, policy, Quarantine, Some(QuotaMessage(q)), env);
    RunToolTracked(w, rid, f, policy, Sandbox, Some(q), counted, posture, env.now);
  }

  lemma JudgeTracked(cfg: Config, w: World, rid: Uuid, reply: Reply, aid: Uuid, posture: bool, env: Env)
    requires Tracked(w) && rid in w.flights && rid in w.used && w.flights[rid].AwaitPolicy?
    ensures Tracked(Judge(cfg, w, rid, reply, aid, posture, env))
  {
    var f := w.flights[rid];
    var policy := PolicyOf(cfg, f, reply);
    var (w1, q) := Limited(cfg, w, f.req, env.now);
    var counted := CountedAs(cfg, w, f.req, env.now);
    if Blocked(q) {
      ThrottleTracked(cfg, w1, rid, f, policy, q.value, counted, aid, posture, env);
    } else {
      ProceedTracked(cfg, w1, rid, f, policy, counted, aid, posture, env);
    }
  }

  lemma FinishTracked(cfg: Config, w: World, rid: Uuid, result: ToolResult, env: Env)
    requires Tracked(w) && rid in w.flights
    ensures w.flights[rid].Running? ==> Tracked(Finish(cfg, w, rid, result, env))
    ensures w.flights[rid].RunningReplay? ==> Tracked(ReplayFinish(cfg, w, rid, result, env))
  {
    if w.flights[rid].Running? {
      RespondTracked(w, rid, w.flights[rid].final);
    } else {
      NoteTracked(w, ReplayDone(rid));
      RespondTracked(Note(w, ReplayDone(rid)), rid, Allow);
    }
  }

  lemma ReplayStartTracked(cfg: Config, w: World, rid: Uuid, aid: Uuid, historyOk: bool, env: Env)
    requires Tracked(w) && rid !in w.used && rid !in w.flights
    ensures Tracked(ReplayStart(cfg, w, rid, aid, historyOk, env))
  {
    if Replayable(w.service, aid, env.now) {
      var w1 := ReplayStart(cfg, w, rid, aid, historyOk, env);
      FlyTracked(w, rid, w1.flights[rid]);
      NoteTracked(w.(used := w.used + {rid}, flights := w1.flights), ReplayChecked(rid, aid, env.now));
    }
  }

  lemma RunReplayTracked(w: World, rid: Uuid, f: Flight, policy: Evaluation, posture: bool, now: int)
    requires Tracked(w) && rid in w.flights && rid in w.used && w.flights[rid] == f && f.AwaitReplayPolicy?
    ensures Tracked(RunReplay(w, rid, f, policy, posture, now))
  {
    var g := RunningReplay(f.approvalId, f.req, f.risk, policy, f.approver);
    FlyTracked(w, rid, g);
    NoteTracked(w.(flights := w.flights[rid := g]),
                RanAgain(rid, f, policy, now));
  }

  lemma StepTracked(cfg: Config, w: World, step: Step, env: Env)
    requires Capability.WellFormed(cfg.registry) && Enabled(w, step) && Tracked(w)
    requires forall rid | rid in w.flights :: rid in w.used
    ensures Tracked(Next(cfg, w, step, env))
  {
    match step
    case DoSubmit(rid, req, historyOk) => SubmitTracked(cfg, w, rid, req, historyOk);
    case DoJudge(rid, reply, aid, posture) => JudgeTracked(cfg, w, rid, reply, aid, posture, env);
    case DoFinish(rid, result) => FinishTracked(cfg, w, rid, result, env);
    case DoReplayStart(rid, aid, historyOk) => ReplayStartTracked(cfg, w, rid, aid, historyOk, env);
    case DoReplayRun(rid, reply, posture) =>
      RunReplayTracked(w, rid, w.flights[rid], PolicyOf(cfg, w.flights[rid], reply), posture, env.now);
    case DoReplayFinish(rid, result) => FinishTracked(cfg, w, rid, result, env);
    case DoReview(aid, approved, approver, comment) => NoteTracked(w, Reviewed(aid, approved));
    case DoRetry(aid) => NoteTracked(w, Retried(aid));
    case DoDrain(limit) =>
  }

  lemma {:induction false} RunTracked(cfg: Config, worlds: seq<World>, steps: seq<(Step, Env)>, k: nat)
    requires IsRun(cfg, worlds, steps) && k <= |steps|
    ensures Tracked(worlds[k])
  {
    if k == 0 {
    } else {
      RunTracked(cfg, worlds, steps, k - 1);
      RunKeeps(cfg, worlds, steps, k - 1);
      StepTracked(cfg, worlds[k - 1], steps[k - 1].0, steps[k - 1].1);
    }
  }
}
