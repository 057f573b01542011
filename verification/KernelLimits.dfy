/** The rate limit under the kernel: how many tools can run for an agent's requests in one window. */
module KernelLimits {
  import opened Base
  import opened Risk
  import opened Policy
  import opened KernelSpec
  import opened KernelHistory
  import RateLimit
  import Capability

  // ---------- the calls of a trace ----------

  /** A tool run for a request, the event it was counted as, and its time. */
  datatype Call = Call(agent: string, tool: string, counted: Option<RateLimit.Event>, at: int)

  function CallOf(h: Happening): seq<Call> {
    match h
    case Ran(_, agent, tool, _, ByRequest, _, _, counted, at) => [Call(agent, tool, counted, at)]
    case _ => []
  }

  function Calls(tr: Trace): seq<Call> {
    if tr == [] then [] else Calls(tr[..|tr| - 1]) + CallOf(tr[|tr| - 1])
  }

  lemma CallsGrow(tr: Trace, h: Happening)
    ensures Calls(tr + [h]) == Calls(tr) + CallOf(h)
    ensures !h.Ran? ==> Calls(tr + [h]) == Calls(tr)
  {
    assert (tr + [h])[..|tr|] == tr;
    assert Calls(tr) + [] == Calls(tr);
  }

  // ---------- the invariant ----------

  /** The call was counted as its own agent's and tool's, at its own time, and let through. */
  predicate LetThrough(results: map<RateLimit.Event, RateLimit.Quota>, c: Call) {
    && c.counted.Some? && c.counted.value in results && !results[c.counted.value].blocked
    && c.counted.value.agent == c.agent && c.counted.value.tool == c.tool && c.counted.value.createdAt == c.at
  }

  ghost predicate CallsOk(results: map<RateLimit.Event, RateLimit.Quota>, calls: seq<Call>) {
    && (forall i | 0 <= i < |calls| :: LetThrough(results, calls[i]))
    && (forall i, j | 0 <= i < j < |calls| :: calls[i].counted != calls[j].counted)
  }

  ghost predicate LimitsOk(cfg: Config, limiter: RateLimit.State, calls: seq<Call>) {
    RateLimit.Inv(cfg.limits, limiter) && CallsOk(limiter.results, calls)
  }

  lemma CountKeeps(cfg: Config, s: RateLimit.State, calls: seq<Call>, agent: string, tenant: Option<string>,
                   tool: string, now: int)
    requires LimitsOk(cfg, s, calls)
    ensures var t := RateLimit.RecordThenCount(cfg.limits, s, agent, tenant, tool, now);
            var e := RateLimit.Event(s.next, agent, tenant, tool, "action", now);
            && LimitsOk(cfg, t, calls)
            && (!t.results[e].blocked ==> LimitsOk(cfg, t, calls + [Call(agent, tool, Some(e), now)]))
  {
    RateLimit.RecordThenCountKeepsInv(cfg.limits, s, agent, tenant, tool, now);
    var t := RateLimit.RecordThenCount(cfg.limits, s, agent, tenant, tool, now);
    forall i | 0 <= i < |calls| ensures LetThrough(t.results, calls[i]) {
      assert LetThrough(s.results, calls[i]);
    }
  }

  // ---------- the steps ----------

  /** Neither the limiter nor the calls change. */
  ghost predicate Quiet(w: World, w': World) {
    w'.limiter == w.limiter && Calls(w'.trace) == Calls(w.trace)
  }

  lemma CloseQuiet(cfg: Config, w: World, rid: Uuid, f: Flight, policy: Evaluation, final: Decision,
                   error: Option<string>, env: Env)
    requires f.AwaitPolicy?
    ensures Quiet(w, Close(cfg, w, rid, f, policy, final, error, env))
  {
    CallsGrow(w.trace, Responded(rid, final));
  }

  lemma AskApprovalQuiet(cfg: Config, w: World, rid: Uuid, f: Flight, policy: Evaluation, error: string, aid: Uuid,
                         env: Env)
    requires f.AwaitPolicy?
    ensures Quiet(w, AskApproval(cfg, w, rid, f, policy, error, aid, env))
  {
    var h := StoredEvent(cfg, rid, f, aid, env.now);
    CallsGrow(w.trace, h);
    CallsGrow(w.trace + [h], Responded(rid, ApprovalRequired));
  }

  /** Either nothing changes, or one more tool runs for request req, counted as given. */
  ghost predicate CallsOnce(w: World, w': World, req: Request, counted: Option<RateLimit.Event>, now: int) {
    && w'.limiter == w.limiter
    && (Calls(w'.trace) == Calls(w.trace)
        || Calls(w'.trace) == Calls(w.trace) + [Call(req.agent.id, req.tool, counted, now)])
  }

  lemma RunToolCalls(w: World, rid: Uuid, f: Flight, policy: Evaluation, final: Decision,
                     quota: Option<RateLimit.Quota>,
                     counted: Option<RateLimit.Event>, posture: bool, now: int)
    requires f.AwaitPolicy?
    ensures CallsOnce(w, RunTool(w, rid, f, policy, final, quota, counted, posture, now), f.req, counted, now)
  {
    CallsGrow(w.trace, RanFor(rid, f, policy, counted, now));
  }

  lemma ProceedCalls(cfg: Config, w: World, rid: Uuid, f: Flight, policy: Evaluation, counted: Option<RateLimit.Event>,
                     aid: Uuid, posture: bool, env: Env)
    requires f.AwaitPolicy?
    ensures CallsOnce(w, Proceed(cfg, w, rid, f, policy, counted, aid, posture, env), f.req, counted, env.now)
  {
    var final := FinalDecision(f.req.tool, policy.decision, f.risk.level, cfg.sandboxType);
    if final == ApprovalRequired && !(cfg.autoApprove && f.risk.level == Low) {
      AskApprovalQuiet(cfg, w, rid, f, policy, "Approval required", aid, env);
    } else if final in {Deny, Quarantine} {
      CloseQuiet(cfg, w, rid, f, policy, final, None, env);
    } else {
      RunToolCalls(w, rid, f, policy, if final == Sandbox then Sandbox else Allow, None, counted, posture, env.now);
    }
  }

  lemma ThrottleQuiet(cfg: Config, w: World, rid: Uuid, f: Flight, policy: Evaluation, q: RateLimit.Quota,
                      counted: Option<RateLimit.Event>,
                      aid: Uuid, posture: bool, env: Env)
    requires f.AwaitPolicy? && cfg.mode != "sandbox"
    ensures Quiet(w, Throttle(cfg, w, rid, f, policy, q, counted, aid, posture, env))
  {
    AskApprovalQuiet(cfg, w, rid, f, policy, QuotaMessage(q), aid, env);
    CloseQuiet(cfg, w, rid, f, policy, Quarantine, Some(QuotaMessage(q)), env);
  }

  lemma JudgeLimits(cfg: Config, w: World, rid: Uuid, reply: Reply, aid: Uuid, posture: bool, env: Env)
    requires rid in w.flights && w.flights[rid].AwaitPolicy?
    requires cfg.anomaly && cfg.mode != "sandbox" && LimitsOk(cfg, w.limiter, Calls(w.trace))
    ensures var w' := Judge(cfg, w, rid, reply, aid, posture, env); LimitsOk(cfg, w'.limiter, Calls(w'.trace))
  {
    var f := w.flights[rid];
    var policy := PolicyOf(cfg, f, reply);
    var (w1, q) := Limited(cfg, w, f.req, env.now);
    var counted := CountedAs(cfg, w, f.req, env.now);
    CountKeeps(cfg, w.limiter, Calls(w.trace), f.req.agent.id, f.req.agent.tenant, f.req.tool, env.now);
    if Blocked(q) {
      ThrottleQuiet(cfg, w1, rid, f, policy, q.value, counted, aid, posture, env);
    } else {
      ProceedCalls(cfg, w1, rid, f, policy, counted, aid, posture, env);
    }
  }

  lemma SubmitQuiet(cfg: Config, w: World, rid: Uuid, req: Request, historyOk: bool)
    requires Capability.WellFormed(cfg.registry)
    ensures Quiet(w, Submit(cfg, w, rid, req, historyOk))
  {
    var verdict := Capability.ToolVerdict(cfg.registry, req.agent, req.tool, req.params, cfg.host);
    var h := Submitted(rid, req.agent.id, req.tool, req.params, verdict == Capability.Permit);
    CallsGrow(w.trace, h);
    CallsGrow(w.trace + [h], Responded(rid, Deny));
  }

  lemma ReplayQuiet(cfg: Config, w: World, rid: Uuid, aid: Uuid, historyOk: bool, env: Env)
    ensures Quiet(w, ReplayStart(cfg, w, rid, aid, historyOk, env))
  {
    CallsGrow(w.trace, ReplayChecked(rid, aid, env.now));
  }

  lemma RunReplayQuiet(w: World, rid: Uuid, f: Flight, policy: Evaluation, posture: bool, now: int)
    requires f.AwaitReplayPolicy?
    ensures Quiet(w, RunReplay(w, rid, f, policy, posture, now))
  {
    CallsGrow(w.trace, RanAgain(rid, f, policy, now));
    assert Calls(w.trace) + [] == Calls(w.trace);
  }

  lemma FinishQuiet(cfg: Config, w: World, rid: Uuid, result: ToolResult, env: Env)
    requires rid in w.flights
    ensures w.flights[rid].Running? ==> Quiet(w, Finish(cfg, w, rid, result, env))
    ensures w.flights[rid].RunningReplay? ==> Quiet(w, ReplayFinish(cfg, w, rid, result, env))
  {
    if w.flights[rid].Running? {
      CallsGrow(w.trace, Responded(rid, w.flights[rid].final));
    } else {
      CallsGrow(w.trace, ReplayDone(rid));
      CallsGrow(w.trace + [ReplayDone(rid)], Responded(rid, Allow));
    }
  }

  lemma EffectLimits(cfg: Config, w: World, step: Step, env: Env)
    requires Capability.WellFormed(cfg.registry) && Enabled(w, step)
    requires cfg.anomaly && cfg.mode != "sandbox" && LimitsOk(cfg, w.limiter, Calls(w.trace))
    ensures var w' := Next(cfg, w, step, env); LimitsOk(cfg, w'.limiter, Calls(w'.trace))
  {
    match step
    case DoSubmit(rid, req, historyOk) => SubmitQuiet(cfg, w, rid, req, historyOk);
    case DoJudge(rid, reply, aid, posture) => JudgeLimits(cfg, w, rid, reply, aid, posture, env);
    case DoFinish(rid, result) => FinishQuiet(cfg, w, rid, result, env);
    case DoReplayStart(rid, aid, historyOk) => ReplayQuiet(cfg, w, rid, aid, historyOk, env);
    case DoReplayRun(rid, reply, posture) =>
      RunReplayQuiet(w, rid, w.flights[rid], PolicyOf(cfg, w.flights[rid], reply), posture, env.now);
    case DoReplayFinish(rid, result) => FinishQuiet(cfg, w, rid, result, env);
    case DoReview(aid, approved, approver, comment) => CallsGrow(w.trace, Reviewed(aid, approved));
    case DoRetry(aid) => CallsGrow(w.trace, Retried(aid));
    case DoDrain(limit) =>
  }

  lemma {:induction false} RunLimits(cfg: Config, worlds: seq<World>, steps: seq<(Step, Env)>, k: nat)
    requires IsRun(cfg, worlds, steps) && k <= |steps| && cfg.anomaly && cfg.mode != "sandbox"
    ensures LimitsOk(cfg, worlds[k].limiter, Calls(worlds[k].trace))
  {
    if k == 0 {
    } else {
      RunLimits(cfg, worlds, steps, k - 1);
      EffectLimits(cfg, worlds[k - 1], steps[k - 1].0, steps[k - 1].1);
    }
  }

  // ---------- the theorem ----------

  /** These calls are of the agent and were counted in the closed window that starts at from; all of them are
      of the given tool, or none falls under a tool threshold. */
  ghost predicate InWindow(cfg: Config, calls: seq<Call>, picked: set<nat>, agent: string, tool: Option<string>,
                           from: int) {
    forall i | i in picked ::
      && i < |calls| && calls[i].agent == agent && calls[i].counted.Some?
      && var e := calls[i].counted.value;
         && from <= e.createdAt <= from + cfg.limits.window
         && (if tool.None? then RateLimit.ScopeOf(cfg.limits, e.tenant, e.tool) != RateLimit.ByTool
             else e.tool == tool.value)
  }

  function EventsOf(calls: seq<Call>, picked: set<nat>): set<RateLimit.Event>
    requires forall i | i in picked :: i < |calls| && calls[i].counted.Some?
  {
    set i | i in picked :: calls[i].counted.value
  }

  lemma {:induction false} AsManyEvents(calls: seq<Call>, picked: set<nat>)
    requires forall i | i in picked :: i < |calls| && calls[i].counted.Some?
    requires forall i, j | 0 <= i < j < |calls| :: calls[i].counted != calls[j].counted
    ensures |EventsOf(calls, picked)| == |picked|
  {
    if picked == {} {
    } else {
      var i :| i in picked;
      AsManyEvents(calls, picked - {i});
      assert EventsOf(calls, picked) == EventsOf(calls, picked - {i}) + {calls[i].counted.value};
    }
  }

  /** The rate limit holds for what really runs. In every run of the kernel, with anomaly detection on and
      the mode not sandbox, at most a threshold's worth of tools run for the requests of an agent in any
      closed window, whatever is interleaved. */
  lemma RunsPerWindow(cfg: Config, worlds: seq<World>, steps: seq<(Step, Env)>, k: nat, picked: set<nat>, agent: string,
                      tool: Option<string>, from: int, limit: int)
    requires IsRun(cfg, worlds, steps) && k <= |steps| && cfg.anomaly && cfg.mode != "sandbox"
    requires InWindow(cfg, Calls(worlds[k].trace), picked, agent, tool, from)
    requires forall i | i in picked ::
               var e := Calls(worlds[k].trace)[i].counted.value;
                 RateLimit.ThresholdOf(cfg.limits, e.tenant, e.tool) <= limit
    ensures picked == {} || |picked| <= limit
  {
    RunLimits(cfg, worlds, steps, k);
    var calls := Calls(worlds[k].trace);
    var es := EventsOf(calls, picked);
    AsManyEvents(calls, picked);
    assert RateLimit.Passed(cfg.limits, worlds[k].limiter, es, agent, tool, from);
    RateLimit.PassedBound(cfg.limits, worlds[k].limiter, es, agent, tool, from, limit);
  }

  // ---------- replays and all runs ----------

  predicate OfTool(tool: Option<string>, name: string) {
    tool.None? || tool.value == name
  }

  predicate RunIn(h: Happening, agent: string, tool: Option<string>, from: int, to: int) {
    h.Ran? && h.agent == agent && OfTool(tool, h.tool) && from <= h.at <= to
  }

  /** The runs of a tool, or of any tool, for an agent between two times, for requests and replays together. */
  function RunsIn(tr: Trace, agent: string, tool: Option<string>, from: int, to: int): nat {
    if tr == [] then 0
    else RunsIn(tr[..|tr| - 1], agent, tool, from, to) + if RunIn(tr[|tr| - 1], agent, tool, from, to) then 1 else 0
  }

  /** Those of them that are replays. */
  function ReplaysIn(tr: Trace, agent: string, tool: Option<string>, from: int, to: int): nat {
    if tr == [] then 0
    else ReplaysIn(tr[..|tr| - 1], agent, tool, from, to)
         + if RunIn(tr[|tr| - 1], agent, tool, from, to) && tr[|tr| - 1].via.ByReplay? then 1 else 0
  }

  function CallsIn(calls: seq<Call>, agent: string, tool: Option<string>, from: int, to: int): set<nat> {
    set i: nat | i < |calls| && calls[i].agent == agent && OfTool(tool, calls[i].tool) && from <= calls[i].at <= to
  }

  lemma OneMoreCall(calls: seq<Call>, c: Call, agent: string, tool: Option<string>, from: int, to: int)
    ensures |CallsIn(calls + [c], agent, tool, from, to)|
            == |CallsIn(calls, agent, tool, from, to)|
               + if c.agent == agent && OfTool(tool, c.tool) && from <= c.at <= to then 1 else 0
  {
    var more := CallsIn(calls + [c], agent, tool, from, to);
    if c.agent == agent && OfTool(tool, c.tool) && from <= c.at <= to {
      assert more == CallsIn(calls, agent, tool, from, to) + {|calls|};
    } else {
      assert more == CallsIn(calls, agent, tool, from, to);
    }
  }

  lemma {:induction false} RunsAreCallsAndReplays(tr: Trace, agent: string, tool: Option<string>, from: int, to: int)
    ensures RunsIn(tr, agent, tool, from, to)
            == |CallsIn(Calls(tr), agent, tool, from, to)| + ReplaysIn(tr, agent, tool, from, to)
  {
    if tr == [] {
    } else {
      var (front, last) := (tr[..|tr| - 1], tr[|tr| - 1]);
      RunsAreCallsAndReplays(front, agent, tool, from, to);
      assert tr == front + [last];
      CallsGrow(front, last);
      if last.Ran? && last.via.ByRequest? {
        OneMoreCall(Calls(front), CallOf(last)[0], agent, tool, from, to);
      } else {
        assert Calls(front) + [] == Calls(front);
      }
    }
  }

  /** Every threshold that may apply to the tool is at most limit; for all tools together there must be no tool
      thresholds. */
  predicate AtMost(l: RateLimit.Limits, tool: Option<string>, limit: int) {
    && 0 <= limit && (forall t | t in l.perTenant :: l.perTenant[t] <= limit)
    && (tool.None? ==> l.perTool == map[])
    && if tool.Some? && tool.value in l.perTool then l.perTool[tool.value] <= limit else l.burst <= limit
  }

  /** The runs of one tool in a window, or of all tools where tools have no thresholds of their own: at most a
      threshold's worth, and the replays on top. */
  lemma AllRunsPerWindow(cfg: Config, worlds: seq<World>, steps: seq<(Step, Env)>, k: nat, agent: string,
                         tool: Option<string>, from: int, limit: int)
    requires IsRun(cfg, worlds, steps) && k <= |steps| && cfg.anomaly && cfg.mode != "sandbox"
    requires AtMost(cfg.limits, tool, limit)
    ensures var (tr, to) := (worlds[k].trace, from + cfg.limits.window);
            RunsIn(tr, agent, tool, from, to) <= limit + ReplaysIn(tr, agent, tool, from, to)
  {
    var (tr, to) := (worlds[k].trace, from + cfg.limits.window);
    var picked := CallsIn(Calls(tr), agent, tool, from, to);
    RunLimits(cfg, worlds, steps, k);
    RunsAreCallsAndReplays(tr, agent, tool, from, to);
    RunsPerWindow(cfg, worlds, steps, k, picked, agent, tool, from, limit);
  }
}
