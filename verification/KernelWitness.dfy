/** Runs from the start that show what the kernel lets happen: a tool that runs although its approval was
    denied or has expired, and any number of runs on one approval, past the rate limit. */
module KernelWitness {
  import opened Base
  import opened Risk
  import opened Policy
  import opened KernelSpec
  import opened KernelHistory
  import opened KernelGates
  import opened KernelReplays
  import opened KernelLimits
  import AuditChain
  import RateLimit
  import Outbox
  import Capability

  // ---------- reachable worlds ----------

  /** Some run from the start ends in this world. */
  ghost predicate Reached(cfg: Config, w: World) {
    exists worlds: seq<World>, steps: seq<(Step, Env)> :: IsRun(cfg, worlds, steps) && worlds[|steps|] == w
  }

  lemma StartIsReached(cfg: Config)
    requires Capability.WellFormed(cfg.registry)
    ensures Reached(cfg, START)
  {
    assert IsRun(cfg, [START], []);
  }

  lemma RunGrows(cfg: Config, worlds: seq<World>, steps: seq<(Step, Env)>, step: Step, env: Env, w: World)
    requires IsRun(cfg, worlds, steps) && Enabled(worlds[|steps|], step)
    requires w == Next(cfg, worlds[|steps|], step, env)
    ensures IsRun(cfg, worlds + [w], steps + [(step, env)])
  {
    var (ws, ss) := (worlds + [w], steps + [(step, env)]);
    forall k | 0 <= k < |ss| ensures Enabled(ws[k], ss[k].0) && ws[k + 1] == Next(cfg, ws[k], ss[k].0, ss[k].1) {
      if k < |steps| {
        assert ws[k] == worlds[k] && ws[k + 1] == worlds[k + 1] && ss[k] == steps[k];
      }
    }
  }

  lemma NextIsReached(cfg: Config, w: World, step: Step, env: Env)
    requires Reached(cfg, w) && Capability.WellFormed(cfg.registry) && Enabled(w, step)
    ensures Reached(cfg, Next(cfg, w, step, env))
  {
    var worlds: seq<World>, steps: seq<(Step, Env)> :| IsRun(cfg, worlds, steps) && worlds[|steps|] == w;
    var w' := Next(cfg, w, step, env);
    RunGrows(cfg, worlds, steps, step, env, w');
    assert (worlds + [w'])[|steps + [(step, env)]|] == w';
  }

  lemma ReachedKeeps(cfg: Config, w: World)
    requires Reached(cfg, w)
    ensures WorldInv(cfg, w) && Capability.WellFormed(cfg.registry)
  {
    var worlds: seq<World>, steps: seq<(Step, Env)> :| IsRun(cfg, worlds, steps) && worlds[|steps|] == w;
    RunKeeps(cfg, worlds, steps, |steps|);
  }

  lemma SubmitIsReached(cfg: Config, w: World, rid: Uuid, req: Request, env: Env)
    requires Reached(cfg, w) && Capability.WellFormed(cfg.registry) && rid !in w.used
    ensures Reached(cfg, Submit(cfg, w, rid, req, true))
  {
    NextIsReached(cfg, w, DoSubmit(rid, req, true), env);
  }

  lemma JudgeIsReached(cfg: Config, w: World, rid: Uuid, reply: Reply, aid: Uuid, env: Env)
    requires Reached(cfg, w) && Capability.WellFormed(cfg.registry)
    requires rid in w.flights && w.flights[rid].AwaitPolicy? && aid !in w.service.approvals
    ensures Reached(cfg, Judge(cfg, w, rid, reply, aid, true, env))
  {
    NextIsReached(cfg, w, DoJudge(rid, reply, aid, true), env);
  }

  lemma ReviewIsReached(cfg: Config, w: World, aid: Uuid, approved: bool, approver: string, env: Env)
    requires Reached(cfg, w) && Capability.WellFormed(cfg.registry)
    ensures Reached(cfg, Review(cfg, w, aid, approved, approver, None, env))
  {
    NextIsReached(cfg, w, DoReview(aid, approved, approver, None), env);
  }

  lemma ReplayStartIsReached(cfg: Config, w: World, rid: Uuid, aid: Uuid, env: Env)
    requires Reached(cfg, w) && Capability.WellFormed(cfg.registry) && rid !in w.used
    ensures Reached(cfg, ReplayStart(cfg, w, rid, aid, true, env))
  {
    NextIsReached(cfg, w, DoReplayStart(rid, aid, true), env);
  }

  lemma ReplayRunIsReached(cfg: Config, w: World, rid: Uuid, reply: Reply, env: Env)
    requires Reached(cfg, w) && Capability.WellFormed(cfg.registry)
    requires rid in w.flights && w.flights[rid].AwaitReplayPolicy?
    ensures Reached(cfg, ReplayRun(cfg, w, rid, reply, true, env))
  {
    NextIsReached(cfg, w, DoReplayRun(rid, reply, true), env);
  }

  lemma ReplayFinishIsReached(cfg: Config, w: World, rid: Uuid, result: ToolResult, env: Env)
    requires Reached(cfg, w) && Capability.WellFormed(cfg.registry)
    requires rid in w.flights && w.flights[rid].RunningReplay?
    ensures Reached(cfg, ReplayFinish(cfg, w, rid, result, env))
  {
    NextIsReached(cfg, w, DoReplayFinish(rid, result), env);
  }

  // ---------- to an approval ----------

  lemma SubmitFlies(cfg: Config, w: World, rid: Uuid, req: Request)
    requires Capability.WellFormed(cfg.registry)
    requires Capability.ToolVerdict(cfg.registry, req.agent, req.tool, req.params, cfg.host) == Capability.Permit
    ensures var w' := Submit(cfg, w, rid, req, true);
            && w'.limiter == w.limiter && w'.service == w.service && w'.used == w.used + {rid}
            && rid in w'.flights && w'.flights[rid] == FlightOf(cfg, w, req, true)
  {
  }

  /** What a run needs to know of its last world to replay an approval. */
  ghost predicate ApprovedFor(cfg: Config, w: World, aid: Uuid, agent: string, tool: string) {
    && WorldInv(cfg, w) && LatestReview(w.trace, aid) == Some(true) && aid in w.service.approvals
    && w.service.approvals[aid].subject.tool == tool && w.service.approvals[aid].subject.agentId == agent
  }

  lemma AskedIsStored(cfg: Config, w: World, w': World, rid: Uuid, f: Flight, aid: Uuid, now: int)
    requires WorldInv(cfg, w') && f.AwaitPolicy? && Asks(cfg, w, w', rid, f, aid, now)
    ensures aid in w'.service.approvals
    ensures w'.service.approvals[aid].subject.tool == f.req.tool
    ensures w'.service.approvals[aid].subject.agentId == f.req.agent.id
    ensures InTime(cfg, w'.trace, |w.trace|, aid, now)
  {
    var a := |w.trace|;
    assert w'.trace[a] == StoredEvent(cfg, rid, f, aid, now);
    var b :| 0 <= b < |w'.trace| && w'.trace[b] == StoredFor(w'.service.approvals[aid]);
    OneStore(cfg, w'.trace, a, b);
  }

  /** A gated request that waits to be judged and that the rate limit does not divert becomes an approval. */
  lemma JudgedIsStored(cfg: Config, w: World, rid: Uuid, reply: Reply, aid: Uuid, env: Env)
    returns (w': World, a: nat)
    requires Reached(cfg, w) && Capability.WellFormed(cfg.registry) && !cfg.autoApprove
    requires rid in w.flights && w.flights[rid].AwaitPolicy? && aid !in w.service.approvals
    requires w.flights[rid].req.tool in GATED_TOOLS && !Diverted(cfg, w, w.flights[rid].req, env.now)
    ensures Reached(cfg, w') && w'.used == w.used && aid in w'.service.approvals
    ensures InTime(cfg, w'.trace, a, aid, env.now)
    ensures w'.service.approvals[aid].subject.agentId == w.flights[rid].req.agent.id
    ensures w'.service.approvals[aid].subject.tool == w.flights[rid].req.tool
  {
    w', a := Judge(cfg, w, rid, reply, aid, true, env), |w.trace|;
    GateAsks(cfg, w, rid, reply, aid, true, env);
    JudgeTouches(cfg, w, rid, reply, aid, true, env);
    JudgeIsReached(cfg, w, rid, reply, aid, env);
    ReachedKeeps(cfg, w');
    AskedIsStored(cfg, w, w', rid, w.flights[rid], aid, env.now);
  }

  lemma AskedIsReached(cfg: Config, rid: Uuid, req: Request, reply: Reply, aid: Uuid, env: Env)
    returns (w: World, a: nat)
    requires Capability.WellFormed(cfg.registry) && !cfg.autoApprove && req.tool in GATED_TOOLS
    requires Capability.ToolVerdict(cfg.registry, req.agent, req.tool, req.params, cfg.host) == Capability.Permit
    requires !Diverted(cfg, START, req, env.now)
    ensures Reached(cfg, w) && w.used == {rid} && aid in w.service.approvals && InTime(cfg, w.trace, a, aid, env.now)
    ensures w.service.approvals[aid].subject.agentId == req.agent.id
    ensures w.service.approvals[aid].subject.tool == req.tool
  {
    StartIsReached(cfg);
    SubmitFlies(cfg, START, rid, req);
    SubmitIsReached(cfg, START, rid, req, env);
    w, a := JudgedIsStored(cfg, Submit(cfg, START, rid, req, true), rid, reply, aid, env);
  }

  /** From the start, any permitted gated request that the rate limit does not divert leads to an approval
      that stands (auto-approval being off). */
  lemma ApprovedIsReached(cfg: Config, rid: Uuid, req: Request, reply: Reply, aid: Uuid, approver: string, env: Env)
    returns (w: World)
    requires Capability.WellFormed(cfg.registry) && !cfg.autoApprove && req.tool in GATED_TOOLS
    requires Capability.ToolVerdict(cfg.registry, req.agent, req.tool, req.params, cfg.host) == Capability.Permit
    requires !Diverted(cfg, START, req, env.now)
    ensures Reached(cfg, w) && w.used == {rid} && ApprovedFor(cfg, w, aid, req.agent.id, req.tool)
    ensures Replayable(w.service, aid, env.now)
  {
    var w2, a := AskedIsReached(cfg, rid, req, reply, aid, env);
    ReachedKeeps(cfg, w2);
    w := Review(cfg, w2, aid, true, approver, None, env);
    ReviewIsReached(cfg, w2, aid, true, approver, env);
    ApprovedStands(cfg, w2, a, aid, approver, env);
  }

  /** An approval that is approved in time stands. */
  lemma ApprovedStands(cfg: Config, w: World, a: nat, aid: Uuid, approver: string, env: Env)
    requires WorldInv(cfg, w) && aid in w.service.approvals && InTime(cfg, w.trace, a, aid, env.now)
    ensures var w' := Review(cfg, w, aid, true, approver, None, env);
            && Replayable(w'.service, aid, env.now) && w'.used == w.used
            && var a := w.service.approvals[aid].subject; ApprovedFor(cfg, w', aid, a.agentId, a.tool)
  {
    var w' := Review(cfg, w, aid, true, approver, None, env);
    ReviewKeeps(cfg, w, aid, true, approver, None, env);
    ReviewIsNoted(cfg, w, aid, true, approver, env);
    assert w'.trace[a] == w.trace[a] && InTime(cfg, w'.trace, a, aid, env.now);
    ReplayableIffStands(cfg, w', aid, env.now);
    SubjectStays(cfg, w, w', aid);
  }

  lemma ReviewIsNoted(cfg: Config, w: World, aid: Uuid, approved: bool, approver: string, env: Env)
    requires aid in w.service.approvals
    ensures var w' := Review(cfg, w, aid, approved, approver, None, env);
            && w'.flights == w.flights && w'.used == w.used
            && w'.trace == w.trace + [Reviewed(aid, approved)] && LatestReview(w'.trace, aid) == Some(approved)
  {
    ReviewGrows(w.trace, Reviewed(aid, approved), aid);
  }

  lemma StoredOnceFor(cfg: Config, tr: Trace, x: Happening, y: Happening)
    requires TraceOk(cfg, tr) && x in tr && y in tr && x.ApprovalStored? && y.ApprovalStored?
    requires x.approvalId == y.approvalId
    ensures x == y
  {
    var a, b :| 0 <= a < |tr| && 0 <= b < |tr| && tr[a] == x && tr[b] == y;
    OneStore(cfg, tr, a, b);
  }

  lemma SubjectStays(cfg: Config, w: World, w': World, aid: Uuid)
    requires WorldInv(cfg, w) && WorldInv(cfg, w') && w.trace <= w'.trace && aid in w.service.approvals
    ensures aid in w'.service.approvals
    ensures StoredFor(w'.service.approvals[aid]) == StoredFor(w.service.approvals[aid])
  {
    var x := StoredFor(w.service.approvals[aid]);
    assert x in w.trace && x in w'.trace;
    StoredOnceFor(cfg, w'.trace, x, StoredFor(w'.service.approvals[aid]));
  }

  // ---------- replays that come too late ----------

  lemma ReplayStarts(cfg: Config, w: World, rid: Uuid, aid: Uuid, env: Env)
    requires Replayable(w.service, aid, env.now)
    ensures var (w', a) := (ReplayStart(cfg, w, rid, aid, true, env), w.service.approvals[aid].subject);
            && w'.service == w.service && w'.used == w.used + {rid}
            && w'.trace == w.trace + [ReplayChecked(rid, aid, env.now)]
            && rid in w'.flights && w'.flights[rid].AwaitReplayPolicy? && w'.flights[rid].approvalId == aid
            && w'.flights[rid].req.tool == a.tool && w'.flights[rid].req.agent.id == a.agentId
  {
  }

  /** The tool of approval aid has just run for this agent. */
  ghost predicate JustRan(tr: Trace, tr': Trace, aid: Uuid, agent: string, now: int) {
    && |tr'| == |tr| + 1 && tr'[..|tr|] == tr
    && tr'[|tr|].Ran? && tr'[|tr|].via == ByReplay(aid) && tr'[|tr|].agent == agent && tr'[|tr|].at == now
  }

  lemma ReplayRuns(cfg: Config, w: World, rid: Uuid, reply: Reply, env: Env)
    requires rid in w.flights && w.flights[rid].AwaitReplayPolicy? && w.flights[rid].req.tool in BROKER_TOOLS
    ensures var (w', f) := (ReplayRun(cfg, w, rid, reply, true, env), w.flights[rid]);
            && JustRan(w.trace, w'.trace, f.approvalId, f.req.agent.id, env.now)
            && w'.service == w.service && w'.used == w.used && rid in w'.flights && w'.flights[rid].RunningReplay?
  {
  }

  /** A denial can come too late: wherever an approval is replayable, its replay can be started, the
      approval denied, and the tool still runs, all within one run of the kernel. */
  lemma DenialCanComeTooLate(cfg: Config, w: World, rid: Uuid, aid: Uuid, agent: string, tool: string, approver: string,
                             reply: Reply, start: Env, review: Env, run: Env)
    returns (w2: World, w3: World)
    requires Reached(cfg, w) && rid !in w.used && ApprovedFor(cfg, w, aid, agent, tool) && tool in BROKER_TOOLS
    requires Replayable(w.service, aid, start.now)
    ensures Reached(cfg, w2) && Reached(cfg, w3) && JustRan(w2.trace, w3.trace, aid, agent, run.now)
    ensures LatestReview(w2.trace, aid) == Some(false) && !Replayable(w2.service, aid, run.now)
  {
    ReachedKeeps(cfg, w);
    var w1 := ReplayStart(cfg, w, rid, aid, true, start);
    ReplayStarts(cfg, w, rid, aid, start);
    ReplayStartIsReached(cfg, w, rid, aid, start);
    w2 := Review(cfg, w1, aid, false, approver, None, review);
    ReviewIsNoted(cfg, w1, aid, false, approver, review);
    ReviewIsReached(cfg, w1, aid, false, approver, review);
    w3 := ReplayRun(cfg, w2, rid, reply, true, run);
    ReplayRuns(cfg, w2, rid, reply, run);
    ReplayRunIsReached(cfg, w2, rid, reply, run);
    ReachedKeeps(cfg, w2);
    ReplayableIffStands(cfg, w2, aid, run.now);
  }

  /** So can the expiry: if the wait ends after the approval has expired the tool runs all the same. */
  lemma ExpiryCanComeTooLate(cfg: Config, w: World, rid: Uuid, aid: Uuid, agent: string, tool: string, reply: Reply,
                             start: Env, run: Env)
    returns (w1: World, w2: World)
    requires Reached(cfg, w) && rid !in w.used && ApprovedFor(cfg, w, aid, agent, tool) && tool in BROKER_TOOLS
    requires Replayable(w.service, aid, start.now) && !Replayable(w.service, aid, run.now)
    ensures Reached(cfg, w1) && Reached(cfg, w2) && JustRan(w1.trace, w2.trace, aid, agent, run.now)
    ensures LatestReview(w1.trace, aid) == Some(true) && !Replayable(w1.service, aid, run.now) && w.trace <= w1.trace
  {
    ReachedKeeps(cfg, w);
    w1 := ReplayStart(cfg, w, rid, aid, true, start);
    ReplayStarts(cfg, w, rid, aid, start);
    ReplayStartIsReached(cfg, w, rid, aid, start);
    ReviewGrows(w.trace, ReplayChecked(rid, aid, start.now), aid);
    w2 := ReplayRun(cfg, w1, rid, reply, true, run);
    ReplayRuns(cfg, w1, rid, reply, run);
    ReplayRunIsReached(cfg, w1, rid, reply, run);
  }

  // ---------- one approval, any number of runs ----------

  lemma RunsGrow(tr: Trace, h: Happening, agent: string, from: int, to: int)
    ensures RunsIn(tr + [h], agent, None, from, to)
            == RunsIn(tr, agent, None, from, to) + if RunIn(h, agent, None, from, to) then 1 else 0
  {
    assert (tr + [h])[..|tr|] == tr;
  }

  lemma ReplayEnds(cfg: Config, w: World, rid: Uuid, result: ToolResult, env: Env)
    requires rid in w.flights && w.flights[rid].RunningReplay?
    ensures var w' := ReplayFinish(cfg, w, rid, result, env);
            && w'.service == w.service && w'.used == w.used
            && w'.trace == w.trace + [ReplayDone(rid), Responded(rid, Allow)]
  {
  }

  lemma ReplayToRun(cfg: Config, w: World, rid: Uuid, aid: Uuid, agent: string, tool: string, reply: Reply, env: Env,
                    from: int, to: int)
    returns (w': World)
    requires Reached(cfg, w) && rid !in w.used && ApprovedFor(cfg, w, aid, agent, tool) && tool in BROKER_TOOLS
    requires Replayable(w.service, aid, env.now) && from <= env.now <= to
    ensures Reached(cfg, w') && w'.used == w.used + {rid} && w'.service == w.service
    ensures rid in w'.flights && w'.flights[rid].RunningReplay?
    ensures RunsIn(w'.trace, agent, None, from, to) == RunsIn(w.trace, agent, None, from, to) + 1
  {
    ReachedKeeps(cfg, w);
    var w1 := ReplayStart(cfg, w, rid, aid, true, env);
    ReplayStarts(cfg, w, rid, aid, env);
    ReplayStartIsReached(cfg, w, rid, aid, env);
    RunsGrow(w.trace, ReplayChecked(rid, aid, env.now), agent, from, to);
    w' := ReplayRun(cfg, w1, rid, reply, true, env);
    ReplayRuns(cfg, w1, rid, reply, env);
    ReplayRunIsReached(cfg, w1, rid, reply, env);
    var run := w'.trace[|w1.trace|];
    assert w'.trace == w1.trace + [run];
    RunsGrow(w1.trace, run, agent, from, to);
  }

  /** One more replay of an approval that stands, from its check to its answer. */
  lemma OneMoreReplay(cfg: Config, w: World, rid: Uuid, aid: Uuid, agent: string, tool: string, reply: Reply,
                      result: ToolResult, env: Env, from: int, to: int)
    returns (w': World)
    requires Reached(cfg, w) && rid !in w.used && ApprovedFor(cfg, w, aid, agent, tool) && tool in BROKER_TOOLS
    requires Replayable(w.service, aid, env.now) && from <= env.now <= to
    ensures Reached(cfg, w') && w'.used == w.used + {rid} && w'.service == w.service
    ensures RunsIn(w'.trace, agent, None, from, to) == RunsIn(w.trace, agent, None, from, to) + 1
  {
    ReachedKeeps(cfg, w);
    var w1 := ReplayToRun(cfg, w, rid, aid, agent, tool, reply, env, from, to);
    w' := ReplayFinish(cfg, w1, rid, result, env);
    ReplayEnds(cfg, w1, rid, result, env);
    ReplayFinishIsReached(cfg, w1, rid, result, env);
    RunsGrow(w1.trace, ReplayDone(rid), agent, from, to);
    RunsGrow(w1.trace + [ReplayDone(rid)], Responded(rid, Allow), agent, from, to);
    assert w'.trace == w1.trace + [ReplayDone(rid)] + [Responded(rid, Allow)];
  }

  lemma StillApproved(cfg: Config, w: World, w': World, aid: Uuid, agent: string, tool: string, now: int)
    requires ApprovedFor(cfg, w, aid, agent, tool) && Replayable(w.service, aid, now)
    requires Reached(cfg, w') && w'.service == w.service
    ensures ApprovedFor(cfg, w', aid, agent, tool)
  {
    ReachedKeeps(cfg, w');
    ReplayableIffStands(cfg, w', aid, now);
  }

  function RidOf(n: nat): Uuid {
    Uuid(seq(n, _ => 'r'))
  }

  lemma RidIsNew(used: set<Uuid>, n: nat)
    requires forall u | u in used :: |u.text| < n
    ensures RidOf(n) !in used && forall u | u in used + {RidOf(n)} :: |u.text| < n + 1
  {
    assert |RidOf(n).text| == n;
  }

  lemma {:induction false} ManyReplays(cfg: Config, w: World, aid: Uuid, agent: string, tool: string, reply: Reply,
                                       result: ToolResult, env: Env, n: nat)
    returns (w': World)
    requires Reached(cfg, w) && w.used == {RidOf(0)} && ApprovedFor(cfg, w, aid, agent, tool) && tool in BROKER_TOOLS
    requires Replayable(w.service, aid, env.now)
    ensures Reached(cfg, w') && w'.service == w.service && forall u | u in w'.used :: |u.text| < n + 1
    ensures RunsIn(w'.trace, agent, None, env.now, env.now) >= n
  {
    if n == 0 {
      w' := w;
    } else {
      var w1 := ManyReplays(cfg, w, aid, agent, tool, reply, result, env, n - 1);
      StillApproved(cfg, w, w1, aid, agent, tool, env.now);
      RidIsNew(w1.used, n);
      w' := OneMoreReplay(cfg, w1, RidOf(n), aid, agent, tool, reply, result, env, env.now, env.now);
    }
  }

  // ---------- a concrete kernel ----------

  const DEMO_AGENT := Agent("a", None, None, 0.5)

  const DEMO_REQUEST := Request(DEMO_AGENT, "write_file", map[], "", NO_AUTH)

  const APPROVAL := Uuid("approval")

  /** One agent that may write; at most one action in 60 seconds; approvals expire after an hour. */
  const DEMO := Config(
    (p: AuditChain.Payload) => "", Capability.OneEntry(DEMO_AGENT, "write_file"), (url: string) => url,
    SHIPPED_PROFILES, DEFAULT_CONFIG, false, "degraded", "dev",
    true, RateLimit.Limits(60, 1, map[], map[]), "quarantine", false,
    Outbox.HookConfig(false, 3, false, 20, 60), (k: nat) => Outbox.Rejected(""))

  lemma DemoIsNotDiverted(now: int)
    ensures !Diverted(DEMO, START, DEMO_REQUEST, now)
  {
    RateLimit.FirstPasses(DEMO.limits, "a", None, "write_file", now);
  }

  lemma DemoApproved(env: Env) returns (w: World)
    ensures Reached(DEMO, w) && w.used == {RidOf(0)} && ApprovedFor(DEMO, w, APPROVAL, "a", "write_file")
    ensures Replayable(w.service, APPROVAL, env.now) && RidOf(1) !in w.used
  {
    assert |RidOf(1).text| != |RidOf(0).text|;
    Capability.OneEntryPermits(DEMO_AGENT, "write_file", map[], DEMO.host);
    DemoIsNotDiverted(env.now);
    w := ApprovedIsReached(DEMO, RidOf(0), DEMO_REQUEST, Failed, APPROVAL, "h", env);
  }

  /** Replays are not counted by the rate limit and do not use up their approval: where one action per
      minute is allowed, a run of the kernel lets the tool run n times at one moment, on one approval, for
      any n. */
  lemma ReplaysExceedEveryLimit(n: nat, env: Env) returns (w: World)
    ensures Reached(DEMO, w) && DEMO.limits.burst == 1 && RunsIn(w.trace, "a", None, env.now, env.now) >= n
  {
    var w0 := DemoApproved(env);
    w := ManyReplays(DEMO, w0, APPROVAL, "a", "write_file", Failed, ToolResult(true, None, None, Null), env, n);
  }

  /** A concrete run in which the tool runs although the latest decision is a denial. */
  lemma DeniedToolRuns(env: Env) returns (before: World, after: World)
    ensures Reached(DEMO, before) && Reached(DEMO, after) && JustRan(before.trace, after.trace, APPROVAL, "a", env.now)
    ensures LatestReview(before.trace, APPROVAL) == Some(false) && !Replayable(before.service, APPROVAL, env.now)
  {
    var w := DemoApproved(env);
    before, after := DenialCanComeTooLate(DEMO, w, RidOf(1), APPROVAL, "a", "write_file", "h", Failed, env, env, env);
  }

  /** A concrete run in which the tool runs although the approval has expired. */
  lemma ExpiredToolRuns(env: Env) returns (before: World, after: World, a: nat)
    ensures Reached(DEMO, before) && Reached(DEMO, after)
    ensures a < |before.trace| && before.trace[a].ApprovalStored? && before.trace[a].approvalId == APPROVAL
    ensures var expiry := before.trace[a].at + 60 * DEMO.hooks.expireMinutes;
            JustRan(before.trace, after.trace, APPROVAL, "a", expiry) && !Replayable(before.service, APPROVAL, expiry)
  {
    var w := DemoApproved(env);
    var at: int;
    a, at := WhenStored(DEMO, w, APPROVAL, env.now);
    var late := env.(now := at + 60 * DEMO.hooks.expireMinutes);
    before, after := ExpiryCanComeTooLate(DEMO, w, RidOf(1), APPROVAL, "a", "write_file", Failed, env, late);
    assert before.trace[a] == w.trace[a];
  }

  lemma WhenStored(cfg: Config, w: World, aid: Uuid, now: int) returns (a: nat, at: int)
    requires Reached(cfg, w) && Replayable(w.service, aid, now)
    ensures a < |w.trace| && w.trace[a].ApprovalStored? && w.trace[a].approvalId == aid && w.trace[a].at == at
    ensures cfg.hooks.expireMinutes > 0 ==> !Replayable(w.service, aid, at + 60 * cfg.hooks.expireMinutes)
  {
    ReachedKeeps(cfg, w);
    ReplayableIffStands(cfg, w, aid, now);
    var b: int :| InTime(cfg, w.trace, b, aid, now);
    a, at := b, w.trace[b].at;
    RowInTime(cfg, w, a, aid, at + 60 * cfg.hooks.expireMinutes);
  }

  // ---------- a request that the policy denies ----------

  /** The DEMO kernel in mode sandbox, with an agent that may read and has no tenant, and no action allowed. */
  const OVER := DEMO.(registry := Capability.OneEntry(DEMO_AGENT, "read_file"), mode := "sandbox",
                      limits := RateLimit.Limits(60, 0, map[], map[]))

  const DENIED_REQUEST := Request(DEMO_AGENT, "read_file", map[], "", NO_AUTH)

  lemma OverThrottles(cfg: Config, w: World, rid: Uuid, aid: Uuid, env: Env, f: Flight)
    requires rid in w.flights && w.flights[rid] == f && f.AwaitPolicy? && f.req.tool in BROKER_TOOLS
    requires cfg.mode == "sandbox" && Blocked(Limited(cfg, w, f.req, env.now).1)
    ensures var tr' := Judge(cfg, w, rid, Failed, aid, true, env).trace;
            && |tr'| == |w.trace| + 1 && tr'[|w.trace|].Ran? && tr'[|w.trace|].via == ByRequest
            && tr'[|w.trace|].policy == PolicyOf(cfg, f, Failed).decision
  {
  }

  /** A concrete run in which the policy denies a request and its tool runs: over the rate limit, in mode
      sandbox, the denial is passed over. */
  lemma RateLimitRunsDenied(env: Env) returns (w: World, k: nat)
    ensures Reached(OVER, w) && k < |w.trace| && w.trace[k].Ran?
    ensures w.trace[k].via == ByRequest && w.trace[k].policy == Deny
  {
    var (rid, aid) := (RidOf(0), APPROVAL);
    Capability.OneEntryPermits(DEMO_AGENT, "read_file", map[], OVER.host);
    StartIsReached(OVER);
    SubmitFlies(OVER, START, rid, DENIED_REQUEST);
    SubmitIsReached(OVER, START, rid, DENIED_REQUEST, env);
    var w1 := Submit(OVER, START, rid, DENIED_REQUEST, true);
    RateLimit.FirstPasses(OVER.limits, "a", None, "read_file", env.now);
    OverThrottles(OVER, w1, rid, aid, env, FlightOf(OVER, START, DENIED_REQUEST, true));
    JudgeIsReached(OVER, w1, rid, Failed, aid, env);
    w, k := Judge(OVER, w1, rid, Failed, aid, true, env), |w1.trace|;
  }
}
