/** The audit log tells the truth: what every row says happened, and everything that was answered has its
    row. */
module KernelAudit {
  import opened Base
  import opened Risk
  import opened Policy
  import opened KernelSpec
  import opened KernelHistory
  import opened KernelAccounts
  import opened KernelTools
  import KernelGates
  import AuditChain
  import RateLimit
  import Outbox
  import Capability

  type Rows = seq<AuditChain.Row>

  // ---------- what a row claims ----------

  /** The decision that a stored decision stands for. */
  function DecisionOf(d: AuditChain.DbDecision): Decision {
    match d
    case DbAllow => Allow
    case DbDeny => Deny
    case DbApprovalRequired => ApprovalRequired
    case DbSandbox => Sandbox
    case DbQuarantine => Quarantine
  }

  /** Happening k stored the approval aid for this request with its agent, tool and parameters. */
  ghost predicate StoredForRequest(tr: Trace, k: int, aid: Uuid, rid: Uuid) {
    0 <= k < |tr| && tr[k].ApprovalStored? && tr[k].approvalId == aid && tr[k].rid == rid
  }

  /** The row of a request: it was submitted with this agent, tool and parameters, passed the capability
      check and was answered with this decision; it carries an approval exactly if it was referred to a
      human, and that approval was stored for it; and a tool result exactly if the tool was called. */
  ghost predicate RequestRow(tr: Trace, r: AuditChain.Row) {
    && r.replayedFrom == None
    && WasSubmitted(tr, r.requestId, r.agentId, r.tool, r.params)
    && Responded(r.requestId, DecisionOf(r.finalDecision)) in tr
    && (r.approvalId.Some? <==> r.finalDecision == AuditChain.DbApprovalRequired)
    && (r.approvalId.Some? ==> exists k :: StoredForRequest(tr, k, r.approvalId.value, r.requestId))
    && (r.executionResult.Some? <==> r.finalDecision in {AuditChain.DbAllow, AuditChain.DbSandbox})
  }

  /** The row of a replay: it names its approval, the replay passed a good check for this agent, tool and
      parameters, and the broker gave back a result under the forced decision. */
  ghost predicate ReplayRow(tr: Trace, r: AuditChain.Row) {
    && r.replayedFrom.Some? && r.approvalId == r.replayedFrom
    && WasChecked(tr, r.requestId, r.replayedFrom.value, r.agentId, r.tool, r.params)
    && ReplayDone(r.requestId) in tr && Responded(r.requestId, Allow) in tr
    && DecisionOf(r.finalDecision) == ForcedDecision(r.tool)
    && r.executionResult.Some?
  }

  ghost predicate RowTrue(cfg: Config, tr: Trace, r: AuditChain.Row) {
    && (RequestRow(tr, r) || ReplayRow(tr, r))
    && AuditChain.DbLevelValue(r.riskLevel) == AuditChain.LevelValue(LevelOf(cfg.risk, r.riskScore))
  }

  ghost predicate HasRow(rows: Rows, rid: Uuid) {
    exists k :: 0 <= k < |rows| && rows[k].requestId == rid
  }

  /** Every row is true, and no request has two. */
  ghost predicate AllTrue(cfg: Config, tr: Trace, rows: Rows) {
    && (forall k | 0 <= k < |rows| :: RowTrue(cfg, tr, rows[k]))
    && (forall j, k | 0 <= j < k < |rows| :: rows[j].requestId != rows[k].requestId)
  }

  ghost function AnsweredIn(tr: Trace): set<Uuid> {
    set i | 0 <= i < |tr| && tr[i].Responded? :: tr[i].rid
  }

  /** An answered request has its row exactly if the capability check did not refuse it and its row was not
      lost. */
  ghost predicate Complete(tr: Trace, rows: Rows, lost: set<Uuid>) {
    forall rid | rid in AnsweredIn(tr) :: HasRow(rows, rid) <==> !WasRefused(tr, rid) && rid !in lost
  }

  ghost predicate Honest(cfg: Config, w: World, lost: set<Uuid>) {
    AllTrue(cfg, w.trace, w.audit) && Complete(w.trace, w.audit, lost) && lost <= AnsweredIn(w.trace)
  }

  /** Whoever is answered in a step whose commit fails loses the row. */
  ghost function LostAfter(tr: Trace, tr': Trace, env: Env, lost: set<Uuid>): set<Uuid> {
    if env.commits then lost else lost + (AnsweredIn(tr') - AnsweredIn(tr))
  }

  /** An honest world after a step: answers stay, and rows are lost only to failed commits. */
  ghost predicate Goes(cfg: Config, w: World, w': World, env: Env, lost: set<Uuid>) {
    && Honest(cfg, w', LostAfter(w.trace, w'.trace, env, lost))
    && AnsweredIn(w.trace) <= AnsweredIn(w'.trace)
  }

  // ---------- growing traces and logs ----------

  lemma RowStays(cfg: Config, tr: Trace, h: Happening, r: AuditChain.Row)
    requires RowTrue(cfg, tr, r)
    ensures RowTrue(cfg, tr + [h], r)
  {
    if ReplayRow(tr, r) {
      CheckStays(tr, h, r.requestId, r.replayedFrom.value, r.agentId, r.tool, r.params);
      assert ReplayRow(tr + [h], r);
    } else {
      if r.approvalId.Some? {
        var k :| StoredForRequest(tr, k, r.approvalId.value, r.requestId);
        assert StoredForRequest(tr + [h], k, r.approvalId.value, r.requestId);
      }
      assert RequestRow(tr + [h], r);
    }
  }

  lemma AllStay(cfg: Config, tr: Trace, h: Happening, rows: Rows)
    requires AllTrue(cfg, tr, rows)
    ensures AllTrue(cfg, tr + [h], rows)
  {
    forall k | 0 <= k < |rows| ensures RowTrue(cfg, tr + [h], rows[k]) {
      RowStays(cfg, tr, h, rows[k]);
    }
  }

  lemma AnsweredGrows(tr: Trace, h: Happening)
    ensures AnsweredIn(tr + [h]) == AnsweredIn(tr) + if h.Responded? then {h.rid} else {}
  {
    var tr' := tr + [h];
    assert tr'[|tr|] == h;
    assert forall i | 0 <= i < |tr| :: tr'[i] == tr[i];
  }

  lemma NoteHonest(cfg: Config, w: World, h: Happening, lost: set<Uuid>)
    requires Honest(cfg, w, lost) && !h.Responded?
    requires h.Submitted? && !h.passed ==> h.rid !in AnsweredIn(w.trace)
    ensures Honest(cfg, Note(w, h), lost) && AnsweredIn(w.trace + [h]) == AnsweredIn(w.trace)
  {
    AllStay(cfg, w.trace, h, w.audit);
    AnsweredGrows(w.trace, h);
    forall rid {
      FactsGrow(w.trace, h, rid);
    }
  }

  lemma RowIsAnswered(cfg: Config, tr: Trace, r: AuditChain.Row) returns (i: nat)
    requires RowTrue(cfg, tr, r)
    ensures i < |tr| && tr[i].Responded? && tr[i].rid == r.requestId
  {
    var d := if RequestRow(tr, r) then DecisionOf(r.finalDecision) else Allow;
    i :| 0 <= i < |tr| && tr[i] == Responded(r.requestId, d);
  }

  /** A request without an answer has no row. */
  lemma UnansweredHasNoRow(cfg: Config, tr: Trace, rows: Rows, rid: Uuid)
    requires AllTrue(cfg, tr, rows) && rid !in AnsweredIn(tr)
    ensures !HasRow(rows, rid)
  {
    forall k | 0 <= k < |rows| ensures rows[k].requestId != rid {
      var i := RowIsAnswered(cfg, tr, rows[k]);
    }
  }

  lemma RowAdded(rows: Rows, p: nat, r: AuditChain.Row, rid: Uuid)
    requires p <= |rows|
    ensures HasRow(AuditChain.InsertAt(rows, p, r), rid) <==> HasRow(rows, rid) || rid == r.requestId
  {
    var out := AuditChain.InsertAt(rows, p, r);
    assert out[p] == r;
    if HasRow(rows, rid) {
      var k :| 0 <= k < |rows| && rows[k].requestId == rid;
      assert out[if k < p then k else k + 1].requestId == rid;
    }
  }

  /** A true row of a request that has none may be added anywhere. */
  lemma RowAddedTrue(cfg: Config, tr: Trace, rows: Rows, p: nat, r: AuditChain.Row)
    requires AllTrue(cfg, tr, rows) && p <= |rows| && RowTrue(cfg, tr, r) && !HasRow(rows, r.requestId)
    ensures AllTrue(cfg, tr, AuditChain.InsertAt(rows, p, r))
  {
  }

  /** A request is audited by a row that its answer makes true, and answered; if the commit fails the row
      is lost. */
  lemma AnswerHonest(cfg: Config, w: World, e: AuditChain.Entry, env: Env, rid: Uuid, d: Decision, lost: set<Uuid>)
    requires Honest(cfg, w, lost) && e.requestId == rid
    requires rid !in AnsweredIn(w.trace) && !WasRefused(w.trace, rid)
    requires RowTrue(cfg, w.trace + [Responded(rid, d)], AuditChain.Next(cfg.H, w.audit, e, env.now))
    ensures Honest(cfg, Respond(Log(cfg, w, e, env), rid, d), if env.commits then lost else lost + {rid})
    ensures AnsweredIn(Respond(Log(cfg, w, e, env), rid, d).trace) == AnsweredIn(w.trace) + {rid}
  {
    var (h, r) := (Responded(rid, d), AuditChain.Next(cfg.H, w.audit, e, env.now));
    UnansweredHasNoRow(cfg, w.trace, w.audit, rid);
    AllStay(cfg, w.trace, h, w.audit);
    AnsweredGrows(w.trace, h);
    forall x {
      FactsGrow(w.trace, h, x);
    }
    if env.commits {
      var p := AuditChain.Spot(w.audit, env.now, env.tie);
      RowAddedTrue(cfg, w.trace + [h], w.audit, p, r);
      forall x {
        RowAdded(w.audit, p, r, x);
      }
    }
  }

  // ---------- true entries ----------

  lemma DecisionOfWritten(d: Decision)
    ensures AuditChain.DbDecisionOf(AuditChain.DecisionValue(d)).Some?
    ensures DecisionOf(AuditChain.DbDecisionOf(AuditChain.DecisionValue(d)).value) == d
  {
    AuditChain.DecisionRoundTrip(d);
  }

  lemma RequestEntryTrue(cfg: Config, tr: Trace, rows: Rows, e: AuditChain.Entry, now: int)
    requires e.replayedFrom == None && e.level == LevelOf(cfg.risk, e.score)
    requires WasSubmitted(tr, e.requestId, e.request.agent.id, e.request.tool, e.request.params)
    requires Responded(e.requestId, e.final) in tr
    requires e.approvalId.Some? <==> e.final == ApprovalRequired
    requires e.approvalId.Some? ==> exists k :: StoredForRequest(tr, k, e.approvalId.value, e.requestId)
    requires e.result.Some? <==> e.final in {Allow, Sandbox}
    ensures RowTrue(cfg, tr, AuditChain.Next(cfg.H, rows, e, now))
  {
    DecisionOfWritten(e.final);
    assert RequestRow(tr, AuditChain.Next(cfg.H, rows, e, now));
  }

  lemma ReplayEntryTrue(cfg: Config, tr: Trace, rows: Rows, e: AuditChain.Entry, now: int)
    requires e.replayedFrom.Some? && e.approvalId == e.replayedFrom && e.level == LevelOf(cfg.risk, e.score)
    requires WasChecked(tr, e.requestId, e.replayedFrom.value, e.request.agent.id, e.request.tool, e.request.params)
    requires ReplayDone(e.requestId) in tr && Responded(e.requestId, Allow) in tr
    requires e.final == ForcedDecision(e.request.tool) && e.result.Some?
    ensures RowTrue(cfg, tr, AuditChain.Next(cfg.H, rows, e, now))
  {
    DecisionOfWritten(e.final);
    assert ReplayRow(tr, AuditChain.Next(cfg.H, rows, e, now));
  }

  // ---------- the steps ----------

  /** What is known of a request under way. */
  ghost predicate Open(cfg: Config, w: World, rid: Uuid, f: Flight) {
    && rid in w.flights && w.flights[rid] == f && FlightOk(cfg, w.trace, rid, f)
    && rid !in AnsweredIn(w.trace) && !WasRefused(w.trace, rid)
  }

  lemma SubmitHonest(cfg: Config, w: World, rid: Uuid, req: Request, historyOk: bool, env: Env, lost: set<Uuid>)
    requires Capability.WellFormed(cfg.registry) && Honest(cfg, w, lost) && rid !in AnsweredIn(w.trace)
    ensures var w' := Submit(cfg, w, rid, req, historyOk); Goes(cfg, w, w', env, lost)
  {
    var verdict := Capability.ToolVerdict(cfg.registry, req.agent, req.tool, req.params, cfg.host);
    var h := Submitted(rid, req.agent.id, req.tool, req.params, verdict == Capability.Permit);
    NoteHonest(cfg, w, h, lost);
    if verdict == Capability.Refuse {
      RefuseHonest(cfg, Note(w, h), rid, lost);
    }
  }

  /** A refused request is answered and has no row, whether or not it is counted as lost. */
  lemma RefuseHonest(cfg: Config, w: World, rid: Uuid, lost: set<Uuid>)
    requires Honest(cfg, w, lost) && rid !in AnsweredIn(w.trace)
    requires w.trace != [] && w.trace[|w.trace| - 1].Submitted? && w.trace[|w.trace| - 1].rid == rid
    requires !w.trace[|w.trace| - 1].passed
    ensures Honest(cfg, Respond(w, rid, Deny), lost) && Honest(cfg, Respond(w, rid, Deny), lost + {rid})
    ensures AnsweredIn(w.trace + [Responded(rid, Deny)]) == AnsweredIn(w.trace) + {rid}
  {
    var h := Responded(rid, Deny);
    AllStay(cfg, w.trace, h, w.audit);
    AnsweredGrows(w.trace, h);
    UnansweredHasNoRow(cfg, w.trace, w.audit, rid);
    assert WasRefused(w.trace, rid);
    forall x {
      FactsGrow(w.trace, h, x);
    }
  }

  lemma CloseHonest(cfg: Config, w: World, rid: Uuid, f: Flight, policy: Evaluation, final: Decision,
                    error: Option<string>, env: Env, lost: set<Uuid>)
    requires Honest(cfg, w, lost) && Open(cfg, w, rid, f) && f.AwaitPolicy? && final in {Deny, Quarantine}
    ensures var w' := Close(cfg, w, rid, f, policy, final, error, env); Goes(cfg, w, w', env, lost)
  {
    var e := EntryFor(f.req, rid, f.risk, policy, final, None, error, env.ms, None, None, None);
    RequestEntryTrue(cfg, w.trace + [Responded(rid, final)], w.audit, e, env.now);
    AnswerHonest(cfg, w, e, env, rid, final, lost);
  }

  lemma AskApprovalHonest(cfg: Config, w: World, rid: Uuid, f: Flight, policy: Evaluation, error: string, aid: Uuid,
                          env: Env, lost: set<Uuid>)
    requires Honest(cfg, w, lost) && Open(cfg, w, rid, f) && f.AwaitPolicy?
    ensures var w' := AskApproval(cfg, w, rid, f, policy, error, aid, env); Goes(cfg, w, w', env, lost)
  {
    var h := StoredEvent(cfg, rid, f, aid, env.now);
    var w1 := Note(w.(service := Outbox.Create(cfg.hooks, cfg.net, w.service, aid, NewApprovalFor(rid, f), env.now)),
                   h);
    NoteHonest(cfg, w, h, lost);
    var tr := w1.trace + [Responded(rid, ApprovalRequired)];
    assert StoredForRequest(tr, |w.trace|, aid, rid);
    var e := EntryFor(f.req, rid, f.risk, policy, ApprovalRequired, None, Some(error), env.ms, Some(aid), None, None);
    RequestEntryTrue(cfg, tr, w.audit, e, env.now);
    AnswerHonest(cfg, w1, e, env, rid, ApprovalRequired, lost);
  }

  lemma RunToolHonest(cfg: Config, w: World, rid: Uuid, f: Flight, policy: Evaluation, final: Decision,
                      quota: Option<RateLimit.Quota>,
                      counted: Option<RateLimit.Event>, posture: bool, now: int, lost: set<Uuid>)
    requires Honest(cfg, w, lost) && f.AwaitPolicy?
    ensures var w' := RunTool(w, rid, f, policy, final, quota, counted, posture, now);
            Honest(cfg, w', lost) && AnsweredIn(w'.trace) == AnsweredIn(w.trace)
  {
    NoteHonest(cfg, w, RanFor(rid, f, policy, counted, now), lost);
  }

  lemma ProceedHonest(cfg: Config, w: World, rid: Uuid, f: Flight, policy: Evaluation,
                      counted: Option<RateLimit.Event>, aid: Uuid, posture: bool, env: Env, lost: set<Uuid>)
    requires Honest(cfg, w, lost) && Open(cfg, w, rid, f) && f.AwaitPolicy?
    ensures var w' := Proceed(cfg, w, rid, f, policy, counted, aid, posture, env); Goes(cfg, w, w', env, lost)
  {
    var final := FinalDecision(f.req.tool, policy.decision, f.risk.level, cfg.sandboxType);
    match final
    case ApprovalRequired =>
      if cfg.autoApprove && f.risk.level == Low {
        RunToolHonest(cfg, w, rid, f, policy, Allow, None, counted, posture, env.now, lost);
      } else {
        AskApprovalHonest(cfg, w, rid, f, policy, "Approval required", aid, env, lost);
      }
    case Allow => RunToolHonest(cfg, w, rid, f, policy, Allow, None, counted, posture, env.now, lost);
    case Sandbox => RunToolHonest(cfg, w, rid, f, policy, Sandbox, None, counted, posture, env.now, lost);
    case Deny => CloseHonest(cfg, w, rid, f, policy, Deny, None, env, lost);
    case Quarantine => CloseHonest(cfg, w, rid, f, policy, Quarantine, None, env, lost);
  }

  lemma ThrottleHonest(cfg: Config, w: World, rid: Uuid, f: Flight, policy: Evaluation, q: RateLimit.Quota,
                       counted: Option<RateLimit.Event>, aid: Uuid, posture: bool,
                       env: Env, lost: set<Uuid>)
    requires Honest(cfg, w, lost) && Open(cfg, w, rid, f) && f.AwaitPolicy?
    ensures var w' := Throttle(cfg, w, rid, f, policy, q, counted, aid, posture, env); Goes(cfg, w, w', env, lost)
  {
    if cfg.mode == "approval_required" {
      AskApprovalHonest(cfg, w, rid, f, policy, QuotaMessage(q), aid, env, lost);
    } else if cfg.mode == "sandbox" {
      RunToolHonest(cfg, w, rid, f, policy, Sandbox, Some(q), counted, posture, env.now, lost);
    } else {
      CloseHonest(cfg, w, rid, f, policy, Quarantine, Some(QuotaMessage(q)), env, lost);
    }
  }

  lemma JudgeHonest(cfg: Config, w: World, rid: Uuid, reply: Reply, aid: Uuid, posture: bool, env: Env, lost: set<Uuid>)
    requires rid in w.flights && w.flights[rid].AwaitPolicy?
    requires Honest(cfg, w, lost) && Open(cfg, w, rid, w.flights[rid])
    ensures var w' := Judge(cfg, w, rid, reply, aid, posture, env); Goes(cfg, w, w', env, lost)
  {
    var f := w.flights[rid];
    var policy := PolicyOf(cfg, f, reply);
    var (w1, q) := Limited(cfg, w, f.req, env.now);
    var counted := CountedAs(cfg, w, f.req, env.now);
    if Blocked(q) {
      ThrottleHonest(cfg, w1, rid, f, policy, q.value, counted, aid, posture, env, lost);
    } else {
      ProceedHonest(cfg, w1, rid, f, policy, counted, aid, posture, env, lost);
    }
  }

  lemma FinishHonest(cfg: Config, w: World, rid: Uuid, f: Flight, result: ToolResult, env: Env, lost: set<Uuid>)
    requires Honest(cfg, w, lost) && Open(cfg, w, rid, f) && f.Running? && f.final in {Allow, Sandbox}
    ensures var w' := Finish(cfg, w, rid, result, env); Goes(cfg, w, w', env, lost)
  {
    var e := FinishEntry(f, rid, result, env.ms);
    RequestEntryTrue(cfg, w.trace + [Responded(rid, f.final)], w.audit, e, env.now);
    AnswerHonest(cfg, w, e, env, rid, f.final, lost);
  }

  lemma ReplayFinishHonest(cfg: Config, w: World, rid: Uuid, f: Flight, result: ToolResult, env: Env, lost: set<Uuid>)
    requires Honest(cfg, w, lost) && Open(cfg, w, rid, f) && f.RunningReplay?
    ensures var w' := ReplayFinish(cfg, w, rid, result, env); Goes(cfg, w, w', env, lost)
  {
    var w1 := Note(w, ReplayDone(rid));
    NoteHonest(cfg, w, ReplayDone(rid), lost);
    var e := ReplayEntry(f, rid, result, env.ms);
    CheckStays(w.trace, ReplayDone(rid), rid, f.approvalId, f.req.agent.id, f.req.tool, f.req.params);
    CheckStays(w1.trace, Responded(rid, Allow), rid, f.approvalId, f.req.agent.id, f.req.tool, f.req.params);
    ReplayEntryTrue(cfg, w1.trace + [Responded(rid, Allow)], w.audit, e, env.now);
    AnswerHonest(cfg, w1, e, env, rid, Allow, lost);
  }

  lemma ReplayStartHonest(cfg: Config, w: World, rid: Uuid, aid: Uuid, historyOk: bool, env: Env, lost: set<Uuid>)
    requires Honest(cfg, w, lost)
    ensures var w' := ReplayStart(cfg, w, rid, aid, historyOk, env);
            Honest(cfg, w', lost) && AnsweredIn(w'.trace) == AnsweredIn(w.trace)
  {
    NoteHonest(cfg, w, ReplayChecked(rid, aid, env.now), lost);
  }

  lemma RunReplayHonest(cfg: Config, w: World, rid: Uuid, f: Flight, policy: Evaluation, posture: bool, now: int,
                        lost: set<Uuid>)
    requires Honest(cfg, w, lost) && f.AwaitReplayPolicy?
    ensures var w' := RunReplay(w, rid, f, policy, posture, now);
            Honest(cfg, w', lost) && AnsweredIn(w'.trace) == AnsweredIn(w.trace)
  {
    NoteHonest(cfg, w, RanAgain(rid, f, policy, now),
               lost);
  }

  lemma FlightIsOpen(cfg: Config, w: World, rid: Uuid)
    requires WorldInv(cfg, w) && Accounts(w) && Tracked(w) && rid in w.flights
    ensures Open(cfg, w, rid, w.flights[rid])
    ensures w.flights[rid].Running? ==> w.flights[rid].final in {Allow, Sandbox}
  {
  }

  lemma ServiceHonest(cfg: Config, w: World, step: Step, env: Env, lost: set<Uuid>)
    requires Capability.WellFormed(cfg.registry) && Enabled(w, step)
    requires step.DoReview? || step.DoRetry? || step.DoDrain?
    requires Honest(cfg, w, lost)
    ensures var w' := Next(cfg, w, step, env); Goes(cfg, w, w', env, lost)
  {
    if step.DoReview? {
      NoteHonest(cfg, w, Reviewed(step.aid, step.approved), lost);
    } else if step.DoRetry? {
      NoteHonest(cfg, w, Retried(step.aid), lost);
    }
  }

  lemma EffectHonest(cfg: Config, w: World, step: Step, env: Env, lost: set<Uuid>)
    requires Capability.WellFormed(cfg.registry) && Enabled(w, step)
    requires WorldInv(cfg, w) && Accounts(w) && Tracked(w) && Honest(cfg, w, lost)
    ensures var w' := Next(cfg, w, step, env); Goes(cfg, w, w', env, lost)
  {
    match step
    case DoSubmit(rid, req, historyOk) => SubmitHonest(cfg, w, rid, req, historyOk, env, lost);
    case DoJudge(rid, reply, aid, posture) =>
      FlightIsOpen(cfg, w, rid);
      JudgeHonest(cfg, w, rid, reply, aid, posture, env, lost);
    case DoFinish(rid, result) =>
      FlightIsOpen(cfg, w, rid);
      FinishHonest(cfg, w, rid, w.flights[rid], result, env, lost);
    case DoReplayStart(rid, aid, historyOk) => ReplayStartHonest(cfg, w, rid, aid, historyOk, env, lost);
    case DoReplayRun(rid, reply, posture) =>
      RunReplayHonest(cfg, w, rid, w.flights[rid], PolicyOf(cfg, w.flights[rid], reply), posture, env.now, lost);
    case DoReplayFinish(rid, result) =>
      FlightIsOpen(cfg, w, rid);
      ReplayFinishHonest(cfg, w, rid, w.flights[rid], result, env, lost);
    case _ => ServiceHonest(cfg, w, step, env, lost);
  }

  /** The requests that were answered in a step whose audit commit failed. */
  ghost function Lost(worlds: seq<World>, steps: seq<(Step, Env)>, k: nat): set<Uuid>
    requires |worlds| == |steps| + 1 && k <= |steps|
  {
    if k == 0 then {}
    else LostAfter(worlds[k - 1].trace, worlds[k].trace, steps[k - 1].1, Lost(worlds, steps, k - 1))
  }

  lemma {:induction false} RunHonest(cfg: Config, worlds: seq<World>, steps: seq<(Step, Env)>, k: nat)
    requires IsRun(cfg, worlds, steps) && k <= |steps|
    ensures Honest(cfg, worlds[k], Lost(worlds, steps, k))
  {
    if k == 0 {
    } else {
      RunHonest(cfg, worlds, steps, k - 1);
      StepGoes(cfg, worlds, steps, k - 1);
    }
  }

  lemma StepGoes(cfg: Config, worlds: seq<World>, steps: seq<(Step, Env)>, k: nat)
    requires IsRun(cfg, worlds, steps) && k < |steps| && Honest(cfg, worlds[k], Lost(worlds, steps, k))
    ensures Goes(cfg, worlds[k], worlds[k + 1], steps[k].1, Lost(worlds, steps, k))
  {
    RunKeeps(cfg, worlds, steps, k);
    RunAccounts(cfg, worlds, steps, k);
    RunTracked(cfg, worlds, steps, k);
    EffectHonest(cfg, worlds[k], steps[k].0, steps[k].1, Lost(worlds, steps, k));
  }

  // ---------- the theorems ----------

  /** After every run, and whichever commits failed, every row of the audit log is true and no request
      has two rows. */
  lemma AuditIsTrue(cfg: Config, worlds: seq<World>, steps: seq<(Step, Env)>, k: nat)
    requires IsRun(cfg, worlds, steps) && k <= |steps|
    ensures AllTrue(cfg, worlds[k].trace, worlds[k].audit)
  {
    RunHonest(cfg, worlds, steps, k);
  }

  /** And every row carries the score and level that the risk engine assessed when the row's request was
      submitted, or its replay started, against the audit log of that moment. */
  lemma RowRiskIsAssessed(cfg: Config, worlds: seq<World>, steps: seq<(Step, Env)>, k: nat, i: nat) returns (j: nat)
    requires IsRun(cfg, worlds, steps) && k <= |steps| && i < |worlds[k].audit|
    ensures j < k && KernelGates.TakesIn(worlds[j], steps[j].0, worlds[k].audit[i].requestId, steps[j].1.now)
    ensures KernelGates.RowRisk(worlds[k].audit[i], KernelGates.RiskTaken(cfg, worlds[j], steps[j].0, steps[j].1.now))
  {
    var rid := worlds[k].audit[i].requestId;
    RunHonest(cfg, worlds, steps, k);
    RunAccounts(cfg, worlds, steps, k);
    var a := RowIsAnswered(cfg, worlds[k].trace, worlds[k].audit[i]);
    j := KernelGates.TakenInOnce(cfg, worlds, steps, k, rid);
    UnusedHasNoRow(cfg, worlds, steps, j, rid);
    KernelGates.TakenCarries(cfg, worlds[j], steps[j].0, steps[j].1, rid);
    KernelGates.RunCarries(cfg, worlds, steps, j + 1, k, rid,
                           KernelGates.RiskTaken(cfg, worlds[j], steps[j].0, steps[j].1.now));
  }

  lemma UnusedHasNoRow(cfg: Config, worlds: seq<World>, steps: seq<(Step, Env)>, j: nat, rid: Uuid)
    requires IsRun(cfg, worlds, steps) && j <= |steps| && rid !in worlds[j].used
    ensures rid !in worlds[j].flights && forall r | r in worlds[j].audit :: r.requestId != rid
  {
    RunKeeps(cfg, worlds, steps, j);
    RunHonest(cfg, worlds, steps, j);
    RunAccounts(cfg, worlds, steps, j);
    UnansweredHasNoRow(cfg, worlds[j].trace, worlds[j].audit, rid);
  }

  /** Answers are never taken back. */
  ghost predicate AnswersStay(worlds: seq<World>) {
    forall i | 0 <= i < |worlds| - 1 :: AnsweredIn(worlds[i].trace) <= AnsweredIn(worlds[i + 1].trace)
  }

  lemma RunAnswersStay(cfg: Config, worlds: seq<World>, steps: seq<(Step, Env)>)
    requires IsRun(cfg, worlds, steps)
    ensures AnswersStay(worlds)
  {
    forall i | 0 <= i < |worlds| - 1 ensures AnsweredIn(worlds[i].trace) <= AnsweredIn(worlds[i + 1].trace) {
      RunHonest(cfg, worlds, steps, i);
      StepGoes(cfg, worlds, steps, i);
    }
  }

  lemma {:induction false} LostAtOwnStep(worlds: seq<World>, steps: seq<(Step, Env)>, j: nat, k: nat, rid: Uuid)
    requires |worlds| == |steps| + 1 && j < k <= |steps| && AnswersStay(worlds)
    requires rid !in AnsweredIn(worlds[j].trace) && rid in AnsweredIn(worlds[j + 1].trace)
    requires rid !in Lost(worlds, steps, j)
    ensures rid in AnsweredIn(worlds[k].trace)
    ensures rid in Lost(worlds, steps, k) <==> !steps[j].1.commits
    decreases k
  {
    if k == j + 1 {
    } else {
      LostAtOwnStep(worlds, steps, j, k - 1, rid);
    }
  }

  /** A request that is answered at step j has its row, then and ever after, if and only if the commit of
      that very step succeeded and the capability check had not refused it. */
  lemma AnswerHasRowIff(cfg: Config, worlds: seq<World>, steps: seq<(Step, Env)>, j: nat, k: nat, rid: Uuid)
    requires IsRun(cfg, worlds, steps) && j < k <= |steps|
    requires !WasAnswered(worlds[j].trace, rid) && WasAnswered(worlds[j + 1].trace, rid)
    ensures HasRow(worlds[k].audit, rid) <==> steps[j].1.commits && !WasRefused(worlds[k].trace, rid)
  {
    RunAnswersStay(cfg, worlds, steps);
    RunHonest(cfg, worlds, steps, j);
    LostAtOwnStep(worlds, steps, j, k, rid);
    RunHonest(cfg, worlds, steps, k);
  }

  lemma {:induction false} NothingLost(worlds: seq<World>, steps: seq<(Step, Env)>, k: nat)
    requires |worlds| == |steps| + 1 && k <= |steps| && forall j | 0 <= j < k :: steps[j].1.commits
    ensures Lost(worlds, steps, k) == {}
  {
    if k == 0 {
    } else {
      NothingLost(worlds, steps, k - 1);
    }
  }

  /** With no failed audit commit every answer has its row, except a refusal by the capability check. */
  lemma AuditIsComplete(cfg: Config, worlds: seq<World>, steps: seq<(Step, Env)>, k: nat, rid: Uuid)
    requires IsRun(cfg, worlds, steps) && k <= |steps| && forall j | 0 <= j < k :: steps[j].1.commits
    requires WasAnswered(worlds[k].trace, rid)
    ensures HasRow(worlds[k].audit, rid) <==> !WasRefused(worlds[k].trace, rid)
  {
    RunHonest(cfg, worlds, steps, k);
    NothingLost(worlds, steps, k);
  }

  /** Every tool that ran has its row, or is still under way, or lost its row to the failed commit of the
      step that answered its request. */
  lemma EveryToolRunIsLogged(cfg: Config, worlds: seq<World>, steps: seq<(Step, Env)>, k: nat, i: nat)
    requires IsRun(cfg, worlds, steps) && k <= |steps| && i < |worlds[k].trace| && worlds[k].trace[i].Ran?
    ensures var rid := worlds[k].trace[i].rid;
            || (rid in worlds[k].flights && Called(worlds[k].flights[rid]))
            || HasRow(worlds[k].audit, rid)
            || exists j :: 0 <= j < k && LosesRow(worlds, steps, j, rid)
  {
    var rid := worlds[k].trace[i].rid;
    RunTracked(cfg, worlds, steps, k);
    RunHonest(cfg, worlds, steps, k);
    assert HasRun(worlds[k].trace, rid);
    if rid in Lost(worlds, steps, k) {
      var j := LostSomewhere(worlds, steps, k, rid);
    }
  }

  /** Step j answers the request and its commit fails. */
  ghost predicate LosesRow(worlds: seq<World>, steps: seq<(Step, Env)>, j: nat, rid: Uuid)
    requires |worlds| == |steps| + 1 && j < |steps|
  {
    !steps[j].1.commits && rid in AnsweredIn(worlds[j + 1].trace) - AnsweredIn(worlds[j].trace)
  }

  lemma {:induction false} LostSomewhere(worlds: seq<World>, steps: seq<(Step, Env)>, k: nat,
                                         rid: Uuid) returns (j: nat)
    requires |worlds| == |steps| + 1 && k <= |steps| && rid in Lost(worlds, steps, k)
    ensures j < k && LosesRow(worlds, steps, j, rid)
  {
    if rid in Lost(worlds, steps, k - 1) {
      j := LostSomewhere(worlds, steps, k - 1, rid);
    } else {
      j := k - 1;
    }
  }
}
