/** Run-wide accounts: what the audit log, the quota events, the approvals, the outbox and the answers
    add up to after every run. */
module KernelAccounts {
  import opened Base
  import opened Risk
  import opened Policy
  import opened KernelSpec
  import opened KernelHistory
  import RateLimit
  import Outbox
  import Delivery
  import Announcements
  import Capability

  // ---------- tallies of the trace ----------

  datatype Tally = Tally(stored: nat, reviewed: nat, retried: nat, replayed: nat, asked: nat)

  /** asked counts the answers APPROVAL_REQUIRED. */
  function Plus(t: Tally, h: Happening): Tally {
    match h
    case ApprovalStored(_, _, _, _, _, _, _) => t.(stored := t.stored + 1)
    case Reviewed(_, _) => t.(reviewed := t.reviewed + 1)
    case Retried(_) => t.(retried := t.retried + 1)
    case ReplayDone(_) => t.(replayed := t.replayed + 1)
    case Responded(_, d) => if d == ApprovalRequired then t.(asked := t.asked + 1) else t
    case _ => t
  }

  function TallyOf(tr: Trace): Tally {
    if tr == [] then Tally(0, 0, 0, 0, 0) else Plus(TallyOf(tr[..|tr| - 1]), tr[|tr| - 1])
  }

  lemma TallyGrows(tr: Trace, h: Happening)
    ensures TallyOf(tr + [h]) == Plus(TallyOf(tr), h)
  {
    assert (tr + [h])[..|tr|] == tr;
  }

  // ---------- announcements ----------

  /** What the outbox is told of a happening: nothing, or an approval and an event. */
  function Label(h: Happening): seq<(Uuid, string)> {
    match h
    case ApprovalStored(aid, _, _, _, _, _, _) => [(aid, "approval.created")]
    case Reviewed(aid, approved) => [(aid, Announcements.DecidedEvent(approved))]
    case Retried(aid) => [(aid, "approval.retry")]
    case _ => []
  }

  function Announced(tr: Trace): seq<(Uuid, string)> {
    if tr == [] then [] else Announced(tr[..|tr| - 1]) + Label(tr[|tr| - 1])
  }

  lemma AnnouncedGrows(tr: Trace, h: Happening)
    ensures Announced(tr + [h]) == Announced(tr) + Label(h)
  {
    assert (tr + [h])[..|tr|] == tr;
  }

  lemma {:induction false} AnnouncedCount(tr: Trace)
    ensures var t := TallyOf(tr); |Announced(tr)| == t.stored + t.reviewed + t.retried
  {
    if tr == [] {
    } else {
      AnnouncedCount(tr[..|tr| - 1]);
    }
  }

  /** The outbox is the list of announcements, in order, and every entry is true. */
  ghost predicate Tells(service: Outbox.State, labels: seq<(Uuid, string)>) {
    && |service.outbox| == |labels|
    && (forall i | 0 <= i < |labels| ::
          (service.outbox[i].entry.approvalId, service.outbox[i].entry.event) == labels[i])
    && Announcements.AllTrue(service)
  }

  lemma TellsMore(before: Outbox.State, after: Outbox.State, labels: seq<(Uuid, string)>, e: Outbox.OutboxEntry)
    requires Tells(before, labels) && Announcements.Added(before, after, e) && Announcements.AllTrue(after)
    ensures Tells(after, labels + [(e.approvalId, e.event)])
  {
  }

  // ---------- the books ----------

  function RunningOf(flights: map<Uuid, Flight>): set<Uuid> {
    set rid | rid in flights && flights[rid].Running?
  }

  /** A rate-limit event id that is still to come is not in the table. */
  ghost predicate QuotaOk(quota: set<RateLimit.Event>, nextQuota: nat) {
    |quota| == nextQuota && forall e | e in quota :: e.id < nextQuota
  }

  /** Tools are only started under ALLOW or SANDBOX. */
  ghost predicate FinalsOk(flights: map<Uuid, Flight>) {
    forall rid | rid in flights && flights[rid].Running? :: flights[rid].final in {Allow, Sandbox}
  }

  ghost predicate TablesAddUp(service: Outbox.State, tr: Trace) {
    && Tells(service, Announced(tr))
    && |service.approvals| == TallyOf(tr).stored == TallyOf(tr).asked
  }

  ghost predicate AnsweredOnce(tr: Trace, flights: map<Uuid, Flight>, used: set<Uuid>) {
    && (forall i | 0 <= i < |tr| && tr[i].Responded? :: tr[i].rid in used && tr[i].rid !in flights)
    && (forall i, j | 0 <= i < j < |tr| && tr[i].Responded? && tr[j].Responded? :: tr[i].rid != tr[j].rid)
  }

  /** The requests answered APPROVAL_REQUIRED are exactly those with an approval row. */
  ghost predicate AskedAreStored(tr: Trace, approvals: map<Uuid, Outbox.ApprovalRow>) {
    && (forall aid | aid in approvals :: Responded(approvals[aid].subject.requestId, ApprovalRequired) in tr)
    && (forall rid | Responded(rid, ApprovalRequired) in tr ::
          exists aid :: aid in approvals && approvals[aid].subject.requestId == rid)
  }

  ghost predicate Accounts(w: World) {
    && FinalsOk(w.flights)
    && TablesAddUp(w.service, w.trace)
    && AnsweredOnce(w.trace, w.flights, w.used)
    && AskedAreStored(w.trace, w.service.approvals)
  }

  // ---------- single entries ----------

  lemma AskedStays(tr: Trace, h: Happening, approvals: Approvals)
    requires AskedAreStored(tr, approvals) && (h.Responded? ==> h.decision != ApprovalRequired)
    ensures AskedAreStored(tr + [h], approvals)
  {
    forall rid | Responded(rid, ApprovalRequired) in tr + [h]
      ensures exists aid :: aid in approvals && approvals[aid].subject.requestId == rid
    {
      assert Responded(rid, ApprovalRequired) in tr;
    }
  }

  /** Happenings that no table follows. */
  predicate Neutral(h: Happening) {
    h.Submitted? || h.ReplayChecked? || h.Ran? || h.ReplayDone?
  }

  lemma NeutralKeepsBooks(tr: Trace, h: Happening)
    requires Neutral(h)
    ensures TallyOf(tr + [h]).stored == TallyOf(tr).stored && TallyOf(tr + [h]).asked == TallyOf(tr).asked
    ensures Announced(tr + [h]) == Announced(tr)
  {
    TallyGrows(tr, h);
    AnnouncedGrows(tr, h);
    assert Announced(tr) + [] == Announced(tr);
  }

  lemma NeutralKeepsAnswers(tr: Trace, h: Happening, flights: map<Uuid, Flight>, used: set<Uuid>)
    requires Neutral(h) && AnsweredOnce(tr, flights, used)
    ensures AnsweredOnce(tr + [h], flights, used)
  {
  }

  lemma NoteAccounts(w: World, h: Happening)
    requires Accounts(w) && Neutral(h)
    ensures Accounts(Note(w, h))
  {
    NeutralKeepsBooks(w.trace, h);
    NeutralKeepsAnswers(w.trace, h, w.flights, w.used);
    AskedStays(w.trace, h, w.service.approvals);
  }

  lemma AnswerGrows(tr: Trace, flights: map<Uuid, Flight>, used: set<Uuid>, rid: Uuid, d: Decision)
    requires AnsweredOnce(tr, flights, used) && rid in used
    requires forall i | 0 <= i < |tr| && tr[i].Responded? :: tr[i].rid != rid
    ensures AnsweredOnce(tr + [Responded(rid, d)], flights - {rid}, used)
  {
  }

  lemma QuietAnswer(tr: Trace, rid: Uuid, d: Decision)
    requires d != ApprovalRequired
    ensures TallyOf(tr + [Responded(rid, d)]) == TallyOf(tr)
    ensures Announced(tr + [Responded(rid, d)]) == Announced(tr)
  {
    TallyGrows(tr, Responded(rid, d));
    AnnouncedGrows(tr, Responded(rid, d));
  }

  /** An answer other than APPROVAL_REQUIRED to a request that has had none. */
  lemma RespondAccounts(w: World, rid: Uuid, d: Decision)
    requires Accounts(w) && d != ApprovalRequired && rid in w.used
    requires forall i | 0 <= i < |w.trace| && w.trace[i].Responded? :: w.trace[i].rid != rid
    ensures Accounts(Respond(w, rid, d))
  {
    QuietAnswer(w.trace, rid, d);
    AskedStays(w.trace, Responded(rid, d), w.service.approvals);
    AnswerGrows(w.trace, w.flights, w.used, rid, d);
  }

  lemma FlyAccounts(w: World, rid: Uuid, f: Flight)
    requires Accounts(w) && (f.Running? ==> f.final in {Allow, Sandbox})
    requires rid in w.flights || rid !in w.used
    ensures Accounts(w.(used := w.used + {rid}, flights := w.flights[rid := f]))
    ensures rid in w.flights ==> Accounts(w.(flights := w.flights[rid := f]))
  {
  }

  // ---------- the steps ----------

  lemma SubmitAccounts(cfg: Config, w: World, rid: Uuid, req: Request, historyOk: bool)
    requires Capability.WellFormed(cfg.registry) && Accounts(w) && rid !in w.used
    ensures Accounts(Submit(cfg, w, rid, req, historyOk))
  {
    var verdict := Capability.ToolVerdict(cfg.registry, req.agent, req.tool, req.params, cfg.host);
    var h := Submitted(rid, req.agent.id, req.tool, req.params, verdict == Capability.Permit);
    NoteAccounts(w, h);
    var w1 := Note(w.(used := w.used + {rid}), h);
    assert Accounts(w1);
    match verdict
    case Permit =>
      FlyAccounts(Note(w, h), rid,
                  AwaitPolicy(req, Assess(cfg.profiles, cfg.risk, req, if historyOk then Some(w.audit) else None)));
    case Refuse => RespondAccounts(w1, rid, Deny);
    case Raises =>
  }

  lemma CloseAccounts(cfg: Config, w: World, rid: Uuid, f: Flight, policy: Evaluation, final: Decision,
                      error: Option<string>, env: Env)
    requires Accounts(w) && rid in w.flights && rid in w.used && f.AwaitPolicy? && final != ApprovalRequired
    ensures Accounts(Close(cfg, w, rid, f, policy, final, error, env))
  {
    RespondAccounts(Log(cfg, w, EntryFor(f.req, rid, f.risk, policy, final, None, error, env.ms, None, None, None),
                        env), rid, final);
  }

  lemma RunToolAccounts(w: World, rid: Uuid, f: Flight, policy: Evaluation, final: Decision,
                        quota: Option<RateLimit.Quota>, counted: Option<RateLimit.Event>, posture: bool, now: int)
    requires Accounts(w) && rid in w.flights && f.AwaitPolicy? && final in {Allow, Sandbox}
    ensures Accounts(RunTool(w, rid, f, policy, final, quota, counted, posture, now))
  {
    var g := Running(f.req, f.risk, policy, final, quota);
    FlyAccounts(w, rid, g);
    var w1 := w.(flights := w.flights[rid := g]);
    if Dispatches(final, f.req.tool, posture) {
      NoteAccounts(w1, RanFor(rid, f, policy, counted, now));
    }
  }

  lemma AskedGrows(tr: Trace, h: Happening, rid: Uuid, before: Approvals, after: Approvals, aid: Uuid)
    requires AskedAreStored(tr, before) && h.ApprovalStored? && aid !in before && after.Keys == before.Keys + {aid}
    requires after[aid].subject.requestId == rid && forall x | x in before :: after[x].subject == before[x].subject
    ensures AskedAreStored(tr + [h] + [Responded(rid, ApprovalRequired)], after)
  {
    var tr' := tr + [h] + [Responded(rid, ApprovalRequired)];
    forall x | x in after ensures Responded(after[x].subject.requestId, ApprovalRequired) in tr' {
      if x == aid {
        assert tr'[|tr| + 1] == Responded(rid, ApprovalRequired);
      } else {
        assert Responded(before[x].subject.requestId, ApprovalRequired) in tr;
      }
    }
    forall r | Responded(r, ApprovalRequired) in tr'
      ensures exists x :: x in after && after[x].subject.requestId == r
    {
      if r == rid {
        assert aid in after;
      } else {
        assert Responded(r, ApprovalRequired) in tr;
        var x :| x in before && before[x].subject.requestId == r;
        assert x in after;
      }
    }
  }

  lemma StoreAnswered(tr: Trace, h: Happening, flights: map<Uuid, Flight>, used: set<Uuid>, rid: Uuid)
    requires AnsweredOnce(tr, flights, used) && h.ApprovalStored? && rid in flights && rid in used
    ensures AnsweredOnce(tr + [h] + [Responded(rid, ApprovalRequired)], flights - {rid}, used)
  {
    assert AnsweredOnce(tr + [h], flights, used);
    AnswerGrows(tr + [h], flights, used, rid, ApprovalRequired);
  }

  lemma StoreAddsUp(before: Outbox.State, after: Outbox.State, tr: Trace, rid: Uuid, aid: Uuid, h: Happening)
    requires TablesAddUp(before, tr) && h.ApprovalStored? && aid !in before.approvals
    requires after.approvals.Keys == before.approvals.Keys + {aid} && Tells(after, Announced(tr) + Label(h))
    ensures TablesAddUp(after, tr + [h] + [Responded(rid, ApprovalRequired)])
  {
    assert |after.approvals| == |after.approvals.Keys| == |before.approvals.Keys| + 1;
    TallyGrows(tr, h);
    TallyGrows(tr + [h], Responded(rid, ApprovalRequired));
    AnnouncedGrows(tr, h);
    AnnouncedGrows(tr + [h], Responded(rid, ApprovalRequired));
    assert Announced(tr) + Label(h) + [] == Announced(tr) + Label(h);
  }

  /** The approvals table gained one row, for a request that is then answered. */
  lemma StoreAccounts(w: World, s: Outbox.State, rid: Uuid, aid: Uuid, h: Happening)
    requires Accounts(w) && h.ApprovalStored? && rid in w.flights && rid in w.used
    requires aid !in w.service.approvals && s.approvals.Keys == w.service.approvals.Keys + {aid}
    requires s.approvals[aid].subject.requestId == rid
    requires forall x | x in w.service.approvals :: s.approvals[x].subject == w.service.approvals[x].subject
    requires Tells(s, Announced(w.trace) + Label(h))
    ensures Accounts(Respond(Note(w.(service := s), h), rid, ApprovalRequired))
  {
    StoreAddsUp(w.service, s, w.trace, rid, aid, h);
    AskedGrows(w.trace, h, rid, w.service.approvals, s.approvals, aid);
    StoreAnswered(w.trace, h, w.flights, w.used, rid);
  }

  lemma CreateSays(cfg: Config, s: Outbox.State, labels: seq<(Uuid, string)>, rid: Uuid, f: Flight, aid: Uuid, now: int)
    requires f.AwaitPolicy? && aid !in s.approvals && !Outbox.KnownRequest(s, rid)
    requires Delivery.Inv(cfg.hooks, s) && Tells(s, labels)
    ensures Tells(Outbox.Create(cfg.hooks, cfg.net, s, aid, NewApprovalFor(rid, f), now),
                  labels + Label(StoredEvent(cfg, rid, f, aid, now)))
  {
    var n := NewApprovalFor(rid, f);
    Announcements.CreateTells(cfg.hooks, cfg.net, s, aid, n, now);
    TellsMore(s, Outbox.Create(cfg.hooks, cfg.net, s, aid, n, now), labels,
              Announcements.CreatedEntry(cfg.hooks, aid, n, now));
  }

  lemma AuditIsNoAccount(w: World, w': World)
    requires Accounts(w) && w'.(audit := w.audit) == w
    ensures Accounts(w')
  {
  }

  lemma AskApprovalAccounts(cfg: Config, w: World, rid: Uuid, f: Flight, policy: Evaluation, error: string, aid: Uuid,
                            env: Env)
    requires WorldInv(cfg, w) && Accounts(w)
    requires rid in w.flights && w.flights[rid] == f && f.AwaitPolicy? && aid !in w.service.approvals
    ensures Accounts(AskApproval(cfg, w, rid, f, policy, error, aid, env))
  {
    var n := NewApprovalFor(rid, f);
    var s := Outbox.Create(cfg.hooks, cfg.net, w.service, aid, n, env.now);
    var h := StoredEvent(cfg, rid, f, aid, env.now);
    WaitingIsUnknown(cfg, w, rid);
    CreateSays(cfg, w.service, Announced(w.trace), rid, f, aid, env.now);
    Delivery.CreateFrame(cfg.hooks, cfg.net, w.service, aid, n, env.now);
    StoreAccounts(w, s, rid, aid, h);
    AuditIsNoAccount(Respond(Note(w.(service := s), h), rid, ApprovalRequired),
                     AskApproval(cfg, w, rid, f, policy, error, aid, env));
  }

  lemma JudgeAccounts(cfg: Config, w: World, rid: Uuid, reply: Reply, aid: Uuid, posture: bool, env: Env)
    requires WorldInv(cfg, w) && Accounts(w) && rid in w.flights && w.flights[rid].AwaitPolicy?
             && aid !in w.service.approvals
    ensures Accounts(Judge(cfg, w, rid, reply, aid, posture, env))
  {
    var f := w.flights[rid];
    var policy := PolicyOf(cfg, f, reply);
    var (w1, q) := Limited(cfg, w, f.req, env.now);
    var counted := CountedAs(cfg, w, f.req, env.now);
    assert Accounts(w1) && rid in w1.used;
    if Blocked(q) {
      if cfg.mode == "approval_required" {
        AskApprovalAccounts(cfg, w1, rid, f, policy, QuotaMessage(q.value), aid, env);
      } else if cfg.mode == "sandbox" {
        RunToolAccounts(w1, rid, f, policy, Sandbox, Some(q.value), counted, posture, env.now);
      } else {
        CloseAccounts(cfg, w1, rid, f, policy, Quarantine, Some(QuotaMessage(q.value)), env);
      }
    } else {
      ProceedAccounts(cfg, w1, rid, f, policy, counted, aid, posture, env);
    }
  }

  lemma ProceedAccounts(cfg: Config, w: World, rid: Uuid, f: Flight, policy: Evaluation,
                        counted: Option<RateLimit.Event>, aid: Uuid, posture: bool, env: Env)
    requires WorldInv(cfg, w) && Accounts(w) && rid in w.flights && rid in w.used
    requires w.flights[rid] == f && f.AwaitPolicy? && aid !in w.service.approvals
    ensures Accounts(Proceed(cfg, w, rid, f, policy, counted, aid, posture, env))
  {
    var final := FinalDecision(f.req.tool, policy.decision, f.risk.level, cfg.sandboxType);
    match final
    case ApprovalRequired =>
      if cfg.autoApprove && f.risk.level == Low {
        RunToolAccounts(w, rid, f, policy, Allow, None, counted, posture, env.now);
      } else {
        AskApprovalAccounts(cfg, w, rid, f, policy, "Approval required", aid, env);
      }
    case Allow => RunToolAccounts(w, rid, f, policy, Allow, None, counted, posture, env.now);
    case Sandbox => RunToolAccounts(w, rid, f, policy, Sandbox, None, counted, posture, env.now);
    case Deny => CloseAccounts(cfg, w, rid, f, policy, Deny, None, env);
    case Quarantine => CloseAccounts(cfg, w, rid, f, policy, Quarantine, None, env);
  }

  lemma FinishAccounts(cfg: Config, w: World, rid: Uuid, result: ToolResult, env: Env)
    requires Accounts(w) && rid in w.flights && rid in w.used && w.flights[rid].Running?
    ensures Accounts(Finish(cfg, w, rid, result, env))
  {
    var f := w.flights[rid];
    var e := FinishEntry(f, rid, result, env.ms);
    RespondAccounts(Log(cfg, w, e, env), rid, f.final);
  }

  lemma ReplayStartAccounts(cfg: Config, w: World, rid: Uuid, aid: Uuid, historyOk: bool, env: Env)
    requires Accounts(w) && rid !in w.used
    ensures Accounts(ReplayStart(cfg, w, rid, aid, historyOk, env))
  {
    if Replayable(w.service, aid, env.now) {
      var a := w.service.approvals[aid];
      var req := ReplayRequest(a);
      var h := ReplayChecked(rid, aid, env.now);
      NoteAccounts(w, h);
      FlyAccounts(Note(w, h), rid,
                  AwaitReplayPolicy(aid, req,
                                    Assess(cfg.profiles, cfg.risk, req,
                                           if historyOk then Some(w.audit) else None), a.review.approverId));
    }
  }

  lemma RunReplayAccounts(w: World, rid: Uuid, f: Flight, policy: Evaluation, posture: bool, now: int)
    requires Accounts(w) && rid in w.flights && f.AwaitReplayPolicy?
    ensures Accounts(RunReplay(w, rid, f, policy, posture, now))
  {
    var g := RunningReplay(f.approvalId, f.req, f.risk, policy, f.approver);
    FlyAccounts(w, rid, g);
    if Dispatches(ForcedDecision(f.req.tool), f.req.tool, posture) {
      NoteAccounts(w.(flights := w.flights[rid := g]),
                   RanAgain(rid, f, policy, now));
    }
  }

  lemma ReplayFinishAccounts(cfg: Config, w: World, rid: Uuid, result: ToolResult, env: Env)
    requires Accounts(w) && rid in w.flights && rid in w.used && w.flights[rid].RunningReplay?
    ensures Accounts(ReplayFinish(cfg, w, rid, result, env))
  {
    var f := w.flights[rid];
    var e := ReplayEntry(f, rid, result, env.ms);
    NoteAccounts(Log(cfg, w, e, env), ReplayDone(rid));
    RespondAccounts(Note(Log(cfg, w, e, env), ReplayDone(rid)), rid, Allow);
  }

  lemma SubjectsStay(tr: Trace, before: Approvals, after: Approvals)
    requires AskedAreStored(tr, before) && after.Keys == before.Keys
    requires forall x | x in before :: after[x].subject == before[x].subject
    ensures AskedAreStored(tr, after) && |after| == |before|
  {
    forall rid | Responded(rid, ApprovalRequired) in tr
      ensures exists x :: x in after && after[x].subject.requestId == rid
    {
      var x :| x in before && before[x].subject.requestId == rid;
      assert x in after;
    }
    assert |after| == |after.Keys| && |before| == |before.Keys|;
  }

  /** One more outbox row for a decision or a retry; the approvals keep their identity. */
  lemma AnnounceAccounts(w: World, s: Outbox.State, h: Happening)
    requires Accounts(w) && (h.Reviewed? || h.Retried?)
    requires s.approvals.Keys == w.service.approvals.Keys && Tells(s, Announced(w.trace) + Label(h))
    requires forall x | x in w.service.approvals :: s.approvals[x].subject == w.service.approvals[x].subject
    ensures Accounts(Note(w.(service := s), h))
  {
    TallyGrows(w.trace, h);
    AnnouncedGrows(w.trace, h);
    AskedStays(w.trace, h, w.service.approvals);
    SubjectsStay(w.trace + [h], w.service.approvals, s.approvals);
  }

  type Labels = seq<(Uuid, string)>

  lemma DecideSays(cfg: Config, s: Outbox.State, labels: Labels, aid: Uuid, approved: bool, approver: string,
                   comment: Option<string>, now: int)
    requires Delivery.Inv(cfg.hooks, s) && Tells(s, labels) && aid in s.approvals
    ensures Tells(Outbox.Decide(cfg.hooks, cfg.net, s, aid, approved, approver, comment, now),
                  labels + Label(Reviewed(aid, approved)))
  {
    var e := Announcements.DecideTells(cfg.hooks, cfg.net, s, aid, approved, approver, comment, now);
    TellsMore(s, Outbox.Decide(cfg.hooks, cfg.net, s, aid, approved, approver, comment, now), labels, e);
  }

  lemma RetrySays(cfg: Config, s: Outbox.State, labels: Labels, aid: Uuid, now: int)
    requires Delivery.Inv(cfg.hooks, s) && Tells(s, labels) && aid in s.approvals
    ensures Tells(Outbox.Retry(cfg.hooks, cfg.net, s, aid, now), labels + Label(Retried(aid)))
  {
    var e := Announcements.RetryTells(cfg.hooks, cfg.net, s, aid, now);
    TellsMore(s, Outbox.Retry(cfg.hooks, cfg.net, s, aid, now), labels, e);
  }

  lemma ReviewAccounts(cfg: Config, w: World, aid: Uuid, approved: bool, approver: string, comment: Option<string>,
                       env: Env)
    requires WorldInv(cfg, w) && Accounts(w)
    ensures Accounts(Review(cfg, w, aid, approved, approver, comment, env))
  {
    if aid in w.service.approvals {
      DecideSays(cfg, w.service, Announced(w.trace), aid, approved, approver, comment, env.now);
      Delivery.DecideFrame(cfg.hooks, cfg.net, w.service, aid, approved, approver, comment, env.now);
      AnnounceAccounts(w, Outbox.Decide(cfg.hooks, cfg.net, w.service, aid, approved, approver, comment, env.now),
                       Reviewed(aid, approved));
    }
  }

  lemma RetryHookAccounts(cfg: Config, w: World, aid: Uuid, env: Env)
    requires WorldInv(cfg, w) && Accounts(w)
    ensures Accounts(RetryHook(cfg, w, aid, env))
  {
    if aid in w.service.approvals {
      RetrySays(cfg, w.service, Announced(w.trace), aid, env.now);
      Delivery.RetryOk(cfg.hooks, cfg.net, w.service, aid, env.now);
      AnnounceAccounts(w, Outbox.Retry(cfg.hooks, cfg.net, w.service, aid, env.now), Retried(aid));
    }
  }

  lemma DrainAccounts(cfg: Config, w: World, limit: nat, now: int)
    requires WorldInv(cfg, w) && Accounts(w)
    ensures Accounts(w.(service := Outbox.Drain(cfg.hooks, cfg.net, w.service, limit, now).0))
  {
    Announcements.DrainTells(cfg.hooks, cfg.net, w.service, limit, now);
    Delivery.DrainOk(cfg.hooks, cfg.net, w.service, limit, now);
  }

  lemma FlightsAreUsed(cfg: Config, w: World)
    requires WorldInv(cfg, w)
    ensures forall rid | rid in w.flights :: rid in w.used
  {
  }

  lemma ServiceAccounts(cfg: Config, w: World, step: Step, env: Env)
    requires Capability.WellFormed(cfg.registry) && WorldInv(cfg, w) && Accounts(w)
    requires step.DoReview? || step.DoRetry? || step.DoDrain?
    ensures Accounts(Next(cfg, w, step, env))
  {
    match step
    case DoReview(aid, approved, approver, comment) => ReviewAccounts(cfg, w, aid, approved, approver, comment, env);
    case DoRetry(aid) => RetryHookAccounts(cfg, w, aid, env);
    case DoDrain(limit) => DrainAccounts(cfg, w, limit, env.now);
  }

  lemma StepAccounts(cfg: Config, w: World, step: Step, env: Env)
    requires Capability.WellFormed(cfg.registry) && WorldInv(cfg, w) && Accounts(w) && Enabled(w, step)
    ensures Accounts(Next(cfg, w, step, env))
  {
    FlightsAreUsed(cfg, w);
    match step
    case DoSubmit(rid, req, historyOk) => SubmitAccounts(cfg, w, rid, req, historyOk);
    case DoJudge(rid, reply, aid, posture) => JudgeAccounts(cfg, w, rid, reply, aid, posture, env);
    case DoFinish(rid, result) => FinishAccounts(cfg, w, rid, result, env);
    case DoReplayStart(rid, aid, historyOk) => ReplayStartAccounts(cfg, w, rid, aid, historyOk, env);
    case DoReplayRun(rid, reply, posture) =>
      RunReplayAccounts(w, rid, w.flights[rid], PolicyOf(cfg, w.flights[rid], reply), posture, env.now);
    case DoReplayFinish(rid, result) => ReplayFinishAccounts(cfg, w, rid, result, env);
    case _ => ServiceAccounts(cfg, w, step, env);
  }

  lemma StartAccounts()
    ensures Accounts(START)
  {
  }

  lemma RunStepAccounts(cfg: Config, worlds: seq<World>, steps: seq<(Step, Env)>, k: nat)
    requires IsRun(cfg, worlds, steps) && k < |steps| && Accounts(worlds[k])
    ensures Accounts(worlds[k + 1])
  {
    RunKeeps(cfg, worlds, steps, k);
    StepAccounts(cfg, worlds[k], steps[k].0, steps[k].1);
  }

  lemma {:induction false} RunAccounts(cfg: Config, worlds: seq<World>, steps: seq<(Step, Env)>, k: nat)
    requires IsRun(cfg, worlds, steps) && k <= |steps|
    ensures Accounts(worlds[k])
  {
    if k == 0 {
      StartAccounts();
    } else {
      RunAccounts(cfg, worlds, steps, k - 1);
      RunStepAccounts(cfg, worlds, steps, k - 1);
    }
  }

  /** Conservation of approvals, on every run and whatever was committed to the audit log: the outbox is
      the list of the approvals that were stored, decided and retried, in that order and nothing else, and
      each entry is true; and the requests answered APPROVAL_REQUIRED correspond one to one with the
      approval rows, each request being answered at most once. */
  lemma ApprovalsConserved(cfg: Config, worlds: seq<World>, steps: seq<(Step, Env)>, k: nat)
    requires IsRun(cfg, worlds, steps) && k <= |steps|
    ensures var (w, t) := (worlds[k], TallyOf(worlds[k].trace));
            && Tells(w.service, Announced(w.trace))
            && |w.service.outbox| == t.stored + t.reviewed + t.retried
            && |w.service.approvals| == t.stored == t.asked
            && AskedAreStored(w.trace, w.service.approvals)
            && Delivery.Keyed(w.service.approvals)
            && (forall i, j | 0 <= i < j < |w.trace| && w.trace[i].Responded? && w.trace[j].Responded? ::
                 w.trace[i].rid != w.trace[j].rid)
  {
    RunKeeps(cfg, worlds, steps, k);
    RunAccounts(cfg, worlds, steps, k);
    AnnouncedCount(worlds[k].trace);
  }
}
