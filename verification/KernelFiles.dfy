/** What gating by tool name and the capability check are worth for files, over every run: the operation of a
    call can be named by the caller, so both depend on what the manifests forbid. */
module KernelFiles {
  import opened Base
  import opened Risk
  import opened Policy
  import opened KernelSpec
  import opened KernelHistory
  import opened KernelGates
  import opened KernelWitness
  import RateLimit
  import Capability
  import Paths

  /** What the adapter does with the call of this happening. */
  function PlanOf(base: Paths.Comps, h: Happening): Capability.Plan
    requires h.Ran?
  {
    Capability.PlanCall(base, Capability.NormalizeParams(h.tool, h.params))
  }

  /** The call writes or deletes a file. */
  predicate ChangesFiles(base: Paths.Comps, h: Happening) {
    && h.Ran? && h.tool in Capability.FS_TOOLS
    && PlanOf(base, h).Act? && (PlanOf(base, h).op.Write? || PlanOf(base, h).op.Delete?)
  }

  /** Files are changed only by replays. */
  ghost predicate OnlyAfterHuman(base: Paths.Comps, tr: Trace) {
    forall k | 0 <= k < |tr| && ChangesFiles(base, tr[k]) :: tr[k].via.ByReplay?
  }

  /** The policy can allow a read of this caller: always if a policy server is asked; the fallback needs a
      tenant. */
  predicate CanBeAllowed(cfg: Config, agent: Agent) {
    cfg.opa || (agent.tenant.Some? && agent.tenant.value != "")
  }

  /** For every caller whose reads can be allowed, the entry that decides its reads either forbids naming the
      operation or permits no call that the adapter acts on. */
  ghost predicate ReadsAreTame(cfg: Config, base: Paths.Comps)
    requires Capability.WellFormed(cfg.registry)
  {
    forall agent: Agent, tool | tool in READ_TOOLS && CanBeAllowed(cfg, agent) ::
      var al := Capability.Serving(cfg.registry, agent, tool);
      al.Some? ==> Capability.Tame(al.value, tool, cfg.host, base)
  }

  /** The same, read off the stored manifests. */
  ghost predicate StoredReadsAreTame(cfg: Config, base: Paths.Comps) {
    forall k, tool | k in cfg.registry.byKey && tool in READ_TOOLS ::
      var al := Capability.FirstFor(cfg.registry.byKey[k].allowances, tool);
      al.Some? ==> Capability.Tame(al.value, tool, cfg.host, base)
  }

  /** With a policy server the condition can be checked manifest by manifest; otherwise that is enough. */
  lemma TameIffStored(cfg: Config, base: Paths.Comps)
    requires Capability.WellFormed(cfg.registry)
    ensures StoredReadsAreTame(cfg, base) ==> ReadsAreTame(cfg, base)
    ensures cfg.opa && ReadsAreTame(cfg, base) ==> StoredReadsAreTame(cfg, base)
  {
    forall agent: Agent, tool | Capability.Serving(cfg.registry, agent, tool).Some?
      ensures exists k :: k in cfg.registry.byKey
                && Capability.FirstFor(cfg.registry.byKey[k].allowances, tool)
                   == Capability.Serving(cfg.registry, agent, tool)
    {
      var k := Capability.ServingIsStored(cfg.registry, agent, tool);
    }
    forall k, tool | k in cfg.registry.byKey
      ensures var m := cfg.registry.byKey[k];
              Capability.Serving(cfg.registry, Agent(m.agentId, m.tenant, m.scope, 1.0), tool)
                == Capability.FirstFor(m.allowances, tool)
    {
      Capability.StoredServesItsOwn(cfg.registry, k, 1.0);
    }
  }

  // ---------- enough ----------

  lemma TameCallReads(cfg: Config, base: Paths.Comps, al: Capability.Allowance, run: Happening)
    requires run.Ran? && run.tool in READ_TOOLS && Capability.Tame(al, run.tool, cfg.host, base)
    requires Capability.AllowanceVerdict(al, run.params, cfg.host) == Capability.Permit
    ensures !ChangesFiles(base, run)
  {
    if ChangesFiles(base, run) {
      assert Capability.Acts(al, run.tool, run.params, cfg.host, base);
      Capability.PermittedFits(al, run.params, cfg.host);
      Capability.OperationFollowsToolIffUnnamed(base, run.tool, run.params);
    }
  }

  lemma DecidedReadCanBeAllowed(cfg: Config, req: Request, level: RiskLevel, policy: Decision)
    requires req.tool in READ_TOOLS && CanDecide(cfg, req, level, policy) && policy != Deny
    ensures CanBeAllowed(cfg, req.agent)
  {
  }

  lemma TameReadsRead(cfg: Config, base: Paths.Comps, run: Happening)
    requires run.Ran? && run.tool in READ_TOOLS && RunOk(cfg, run.agent, run.tool, run.params, run.level, run.policy)
    requires Capability.WellFormed(cfg.registry) && ReadsAreTame(cfg, base) && run.policy != Deny
    ensures !ChangesFiles(base, run)
  {
    var req: Request :| req.agent.id == run.agent && req.tool == run.tool && req.params == run.params
                        && Vetted(cfg, req, run.level) && CanDecide(cfg, req, run.level, run.policy);
    DecidedReadCanBeAllowed(cfg, req, run.level, run.policy);
    TameCallReads(cfg, base, Capability.Serving(cfg.registry, req.agent, run.tool).value, run);
  }

  /** Files are changed only after a human: if the entries for reads are tame, auto-approval is off and the
      mode is not sandbox, every tool run that writes or deletes a file, in every run of the kernel and
      whatever the tool is called, is an accounted replay. */
  lemma FileChangesNeedHuman(cfg: Config, base: Paths.Comps, worlds: seq<World>, steps: seq<(Step, Env)>, n: nat,
                             k: nat)
    returns (s: nat, a: nat, c: nat)
    requires IsRun(cfg, worlds, steps) && n <= |steps| && ReadsAreTame(cfg, base)
    requires !cfg.autoApprove && cfg.mode != "sandbox"
    requires k < |worlds[n].trace| && ChangesFiles(base, worlds[n].trace[k])
    ensures Accounted(cfg, worlds[n].trace, s, a, c, k)
  {
    RunKeeps(cfg, worlds, steps, n);
    EveryRunJustified(cfg, worlds, steps, n, k);
    if worlds[n].trace[k].via.ByRequest? {
      TameReadsRead(cfg, base, worlds[n].trace[k]);
    }
    s, a, c := ReplayIsAccounted(cfg, worlds[n].trace, k);
  }

  // ---------- and necessary ----------

  /** The limiter lets a first action through. */
  predicate LetsOneThrough(cfg: Config) {
    cfg.anomaly ==>
      && cfg.limits.burst >= 1
      && (forall t | t in cfg.limits.perTool :: cfg.limits.perTool[t] >= 1)
      && (forall t | t in cfg.limits.perTenant :: cfg.limits.perTenant[t] >= 1)
  }

  const ALLOW := Answer(Some("allow"), None, [])

  lemma FirstActionPasses(cfg: Config, w: World, req: Request, env: Env)
    requires w.limiter == RateLimit.INITIAL && LetsOneThrough(cfg)
    ensures !Blocked(Limited(cfg, w, req, env.now).1)
  {
    if cfg.anomaly {
      RateLimit.FirstPasses(cfg.limits, req.agent.id, req.agent.tenant, req.tool, env.now);
    }
  }

  /** A read of a caller that can be allowed is allowed. */
  lemma ReadIsAllowed(cfg: Config, f: Flight, history: History)
    requires f.AwaitPolicy? && f.req.tool in READ_TOOLS && CanBeAllowed(cfg, f.req.agent)
    requires f.risk == Assess(SHIPPED_PROFILES, DEFAULT_CONFIG, f.req, history)
    ensures PolicyOf(cfg, f, ALLOW).decision == Allow && f.risk.level in {Low, Medium}
  {
    LevelsByTool(f.req, history);
    MapDocs();
  }

  lemma ReadGoesAhead(cfg: Config, w: World, rid: Uuid, f: Flight, policy: Evaluation,
                      counted: Option<RateLimit.Event>, aid: Uuid, env: Env)
    requires f.AwaitPolicy? && f.req.tool in READ_TOOLS && policy.decision == Allow && f.risk.level in {Low, Medium}
    ensures Proceed(cfg, w, rid, f, policy, counted, aid, true, env)
            == RunTool(w, rid, f, policy, Allow, None, counted, true, env.now)
  {
  }

  lemma AllowedReadRuns(cfg: Config, w: World, rid: Uuid, aid: Uuid, env: Env, f: Flight)
    requires rid in w.flights && w.flights[rid] == f && f.AwaitPolicy? && f.req.tool in READ_TOOLS
    requires w.limiter == RateLimit.INITIAL && LetsOneThrough(cfg)
    requires PolicyOf(cfg, f, ALLOW).decision == Allow && f.risk.level in {Low, Medium}
    ensures var tr' := Judge(cfg, w, rid, ALLOW, aid, true, env).trace;
            && |tr'| == |w.trace| + 1 && tr'[|w.trace|].Ran? && tr'[|w.trace|].via == ByRequest
            && tr'[|w.trace|].tool == f.req.tool && tr'[|w.trace|].params == f.req.params
  {
    FirstActionPasses(cfg, w, f.req, env);
    var w1 := Limited(cfg, w, f.req, env.now).0;
    ReadGoesAhead(cfg, w1, rid, f, PolicyOf(cfg, f, ALLOW), CountedAs(cfg, w, f.req, env.now), aid, env);
  }

  /** A permitted read of a caller that can be allowed runs, straight from the start and without a human. */
  lemma PermittedReadRuns(cfg: Config, req: Request, env: Env) returns (w: World, k: nat)
    requires Capability.WellFormed(cfg.registry) && cfg.profiles == SHIPPED_PROFILES && cfg.risk == DEFAULT_CONFIG
    requires LetsOneThrough(cfg) && req.tool in READ_TOOLS && CanBeAllowed(cfg, req.agent)
    requires Capability.ToolVerdict(cfg.registry, req.agent, req.tool, req.params, cfg.host) == Capability.Permit
    ensures Reached(cfg, w) && k < |w.trace| && w.trace[k].Ran? && w.trace[k].via == ByRequest
    ensures w.trace[k].tool == req.tool && w.trace[k].params == req.params
  {
    var (rid, aid) := (RidOf(0), APPROVAL);
    var f := FlightOf(cfg, START, req, true);
    StartIsReached(cfg);
    SubmitFlies(cfg, START, rid, req);
    SubmitIsReached(cfg, START, rid, req, env);
    var w1 := Submit(cfg, START, rid, req, true);
    ReadIsAllowed(cfg, f, Some(START.audit));
    AllowedReadRuns(cfg, w1, rid, aid, env, f);
    JudgeIsReached(cfg, w1, rid, ALLOW, aid, env);
    w, k := Judge(cfg, w1, rid, ALLOW, aid, true, env), |w1.trace|;
  }

  lemma NamedDelete(al: Capability.Allowance, tool: string, params: Params, host: string -> string, base: Paths.Comps)
    requires tool in READ_TOOLS && !Capability.ForbidsOperation(al) && Capability.Acts(al, tool, params, host, base)
    ensures var named := params["operation" := Str("delete")];
            && Capability.AllowanceVerdict(al, named, host) == Capability.Permit
            && Capability.PlanCall(base, Capability.NormalizeParams(tool, named)).Act?
            && Capability.PlanCall(base, Capability.NormalizeParams(tool, named)).op == Capability.Delete
  {
    Capability.NamingKeepsTheRest(al, tool, params, host, base);
    assert |"read"| == 4 && |"write"| == 5 && |"delete"| == 6 && |"list"| == 4;
  }

  /** Where the entry of a read is not tame, the kernel lets a read delete a file and asks no human. */
  lemma UntamedReadDeletes(cfg: Config, base: Paths.Comps, agent: Agent, tool: string, env: Env) returns (w: World)
    requires Capability.WellFormed(cfg.registry) && cfg.profiles == SHIPPED_PROFILES && cfg.risk == DEFAULT_CONFIG
    requires LetsOneThrough(cfg) && tool in READ_TOOLS && CanBeAllowed(cfg, agent)
    requires var al := Capability.Serving(cfg.registry, agent, tool);
             al.Some? && !Capability.Tame(al.value, tool, cfg.host, base)
    ensures Reached(cfg, w) && !OnlyAfterHuman(base, w.trace)
  {
    var al := Capability.Serving(cfg.registry, agent, tool).value;
    var params: Params :| Capability.Acts(al, tool, params, cfg.host, base);
    NamedDelete(al, tool, params, cfg.host, base);
    var k: nat;
    w, k := PermittedReadRuns(cfg, Request(agent, tool, params["operation" := Str("delete")], "", NO_AUTH), env);
    assert ChangesFiles(base, w.trace[k]);
  }

  /** When files change only after a human, exactly. With the shipped profiles and thresholds, auto-approval
      off, the mode not sandbox and a limiter that lets a first action through: in every reachable world every
      tool run that writes or deletes a file is a replay if and only if the entries for reads are tame. */
  lemma FilesNeedHumanIffTame(cfg: Config, base: Paths.Comps)
    requires Capability.WellFormed(cfg.registry) && cfg.profiles == SHIPPED_PROFILES && cfg.risk == DEFAULT_CONFIG
    requires !cfg.autoApprove && cfg.mode != "sandbox" && LetsOneThrough(cfg)
    ensures (forall w | Reached(cfg, w) :: OnlyAfterHuman(base, w.trace)) <==> ReadsAreTame(cfg, base)
  {
    if ReadsAreTame(cfg, base) {
      forall w, k | Reached(cfg, w) && 0 <= k < |w.trace| && ChangesFiles(base, w.trace[k])
        ensures w.trace[k].via.ByReplay?
      {
        var worlds: seq<World>, steps: seq<(Step, Env)> :| IsRun(cfg, worlds, steps) && worlds[|steps|] == w;
        var s, a, c := FileChangesNeedHuman(cfg, base, worlds, steps, |steps|, k);
      }
    } else {
      var agent: Agent, tool :| tool in READ_TOOLS && CanBeAllowed(cfg, agent)
        && Capability.Serving(cfg.registry, agent, tool).Some?
        && !Capability.Tame(Capability.Serving(cfg.registry, agent, tool).value, tool, cfg.host, base);
      var w := UntamedReadDeletes(cfg, base, agent, tool, Env(0, true, 0, 0));
    }
  }

  // ---------- confinement ----------

  /** All entries of filesystem tools are closed. */
  ghost predicate FilesAreClosed(r: Capability.Registry) {
    forall k, i | k in r.byKey && 0 <= i < |r.byKey[k].allowances|
                  && r.byKey[k].allowances[i].tool in Capability.FS_TOOLS ::
      Capability.ClosedFsAllowance(r.byKey[k].allowances[i])
  }

  /** Some identity of the agent is served this entry, and the call keeps to it: its tool's own operation
      below one of the entry's prefixes. */
  ghost predicate KeepsToEntry(cfg: Config, base: Paths.Comps, run: Happening, agent: Agent, al: Capability.Allowance)
    requires Capability.WellFormed(cfg.registry) && run.Ran? && run.tool in Capability.FS_TOOLS
  {
    && agent.id == run.agent && Capability.Serving(cfg.registry, agent, run.tool) == Some(al)
    && Capability.ConfinedAct(base, run.tool, run.params, al)
  }

  /** Confinement over every run: if the entries of filesystem tools are closed, every run of such a tool,
      replays included, performs its tool's own operation below a prefix that a manifest for the agent names. */
  lemma FileRunsAreConfined(cfg: Config, base: Paths.Comps, worlds: seq<World>, steps: seq<(Step, Env)>, n: nat, k: nat)
    returns (agent: Agent, al: Capability.Allowance)
    requires IsRun(cfg, worlds, steps) && n <= |steps| && FilesAreClosed(cfg.registry)
    requires k < |worlds[n].trace| && worlds[n].trace[k].Ran? && worlds[n].trace[k].tool in Capability.FS_TOOLS
    ensures KeepsToEntry(cfg, base, worlds[n].trace[k], agent, al)
  {
    var (tr, run) := (worlds[n].trace, worlds[n].trace[k]);
    RunKeeps(cfg, worlds, steps, n);
    RunWasPermitted(cfg, tr, k);
    agent :| agent.id == run.agent
             && Capability.ToolVerdict(cfg.registry, agent, run.tool, run.params, cfg.host) == Capability.Permit;
    al := Capability.Serving(cfg.registry, agent, run.tool).value;
    var key := Capability.ServingIsStored(cfg.registry, agent, run.tool);
    var i := Capability.FirstIsThere(cfg.registry.byKey[key].allowances, run.tool);
    Capability.PermittedCallIsConfined(cfg.registry, agent, run.tool, run.params, cfg.host, base, al);
  }

  lemma RunWasPermitted(cfg: Config, tr: Trace, k: nat)
    requires TraceOk(cfg, tr) && k < |tr| && tr[k].Ran?
    ensures Permitted(cfg, tr[k].agent, tr[k].tool, tr[k].params)
  {
    assert HappeningOk(cfg, tr[..k], tr[k]);
    if tr[k].via.ByRequest? {
      var req: Request :| req.agent.id == tr[k].agent && req.tool == tr[k].tool && req.params == tr[k].params
                          && Vetted(cfg, req, tr[k].level) && CanDecide(cfg, req, tr[k].level, tr[k].policy);
    } else {
      var s, a, c := ReplayIsAccounted(cfg, tr, k);
      assert HappeningOk(cfg, tr[..s], tr[s]);
    }
  }

  // ---------- a concrete kernel ----------

  const OPEN_AGENT := Agent("a", Some("t"), None, 0.5)

  /** The DEMO kernel with one agent of a tenant that may read, without restrictions. */
  const OPEN := DEMO.(registry := Capability.OneEntry(OPEN_AGENT, "read_file"))

  lemma ReadingIsPlanned(base: Paths.Comps)
    ensures Capability.PlanCall(base, Capability.NormalizeParams("read_file", map["path" := Str("x")])).Act?
  {
    assert "x"[0] == 'x' && |"x"| == 1;
    Capability.NameIsInward("x");
    Paths.InwardResolves(base, "x");
  }

  /** A concrete run in which a read_file of the shipped risk profile deletes a file and no human is asked. */
  lemma ReadDeletesUnattended(base: Paths.Comps, env: Env) returns (w: World)
    ensures !OPEN.autoApprove && OPEN.mode != "sandbox" && Reached(OPEN, w) && !OnlyAfterHuman(base, w.trace)
  {
    var params: Params := map["path" := Str("x")];
    Capability.OneEntryPermits(OPEN_AGENT, "read_file", params, OPEN.host);
    ReadingIsPlanned(base);
    var al := Capability.Serving(OPEN.registry, OPEN_AGENT, "read_file");
    assert Capability.Acts(al.value, "read_file", params, OPEN.host, base);
    w := UntamedReadDeletes(OPEN, base, OPEN_AGENT, "read_file", env);
  }
}
