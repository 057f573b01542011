/** Risk scoring: weighted sums of tool, trust, parameter, context and request-chain risk, over the
    reals. */
module Risk {
  import opened Base
  import opened AuditChain

  datatype Profile = Profile(base: real, category: string)

  datatype RiskConfig = RiskConfig(medium: real, high: real, critical: real, chainEnabled: bool, lookback: nat)

  const DEFAULT_CONFIG := RiskConfig(0.3, 0.7, 0.9, true, 20)

  /** The built-in profiles, updated with the shipped policies/tool_risk_profiles.json. */
  const BUILT_IN: map<string, Profile> := map[
    "read_file" := Profile(0.1, "filesystem"), "write_file" := Profile(0.6, "filesystem"),
    "delete_file" := Profile(0.8, "filesystem"), "exec" := Profile(0.9, "execution"),
    "shell" := Profile(1.0, "execution"), "network_request" := Profile(0.5, "network"),
    "database_query" := Profile(0.4, "data_access"), "send_message" := Profile(0.3, "communication")]

  const SHIPPED_FILE: map<string, Profile> := map[
    "read_file" := Profile(0.1, "filesystem"), "list_directory" := Profile(0.1, "filesystem"),
    "write_file" := Profile(0.6, "filesystem"), "delete_file" := Profile(0.8, "filesystem"),
    "http_request" := Profile(0.5, "network"), "exec" := Profile(0.9, "execution")]

  const SHIPPED_PROFILES: map<string, Profile> := BUILT_IN + SHIPPED_FILE

  function ProfileOf(profiles: map<string, Profile>, tool: string): Profile {
    if tool in profiles then profiles[tool] else Profile(0.5, "unknown")
  }

  // ---------- the parts ----------

  /** Some string value among the parameters contains one of the needles. */
  predicate AnyValueHas(params: Params, needles: seq<string>) {
    exists k | k in params :: ValueHas(params[k], needles)
  }

  predicate ValueHas(j: Json, needles: seq<string>) {
    j.Str? && exists i | 0 <= i < |needles| :: Contains(j.text, needles[i])
  }

  const SENSITIVE_WORDS := ["password", "secret", "key", "token"]
  const SENSITIVE_PHRASES := ["delete", "destroy", "exfiltrate", "steal", "hack", "bypass"]

  predicate SensitiveKey(key: string) {
    exists i | 0 <= i < |SENSITIVE_WORDS| :: Contains(Lower(key), SENSITIVE_WORDS[i])
  }

  predicate AnySensitiveKey(params: Params) {
    exists k | k in params :: SensitiveKey(k)
  }

  /** The needles that a tool category looks for and the risk they add. */
  function CategoryRule(category: string): (seq<string>, real) {
    if category == "filesystem" then (["..", "/", "\\"], 0.3)
    else if category == "execution" then (["|", "&", ";"], 0.5)
    else if category == "network" then (["http://", "https://"], 0.2)
    else ([], 0.0)
  }

  function ParameterRisk(params: Params, category: string): real {
    var (needles, weight) := CategoryRule(category);
    var risk := (if AnyValueHas(params, needles) then weight else 0.0) + (if AnySensitiveKey(params) then 0.4 else 0.0);
    if risk <= 1.0 then risk else 1.0
  }

  predicate SensitiveContext(context: string) {
    exists i | 0 <= i < |SENSITIVE_PHRASES| :: Contains(Lower(context), SENSITIVE_PHRASES[i])
  }

  function ContextRisk(context: string): real {
    if SensitiveContext(context) then 0.5 else 0.0
  }

  /** The tools of the agent's latest audit rows, newest first, at most limit of them. */
  function RecentTools(rows: seq<Row>, agent: string, limit: nat): seq<string> {
    if limit == 0 || rows == [] then []
    else
      var last := rows[|rows| - 1];
      if last.agentId == agent then [last.tool] + RecentTools(rows[..|rows| - 1], agent, limit - 1)
      else RecentTools(rows[..|rows| - 1], agent, limit)
  }

  predicate HasRead(tools: seq<string>) {
    exists i | 0 <= i < |tools| :: tools[i] in READ_TOOLS
  }

  /** The audit history at the time of the assessment; None if the query failed. */
  type History = Option<seq<Row>>

  predicate Chained(cfg: RiskConfig, req: Request, history: History) {
    && cfg.chainEnabled && req.tool == "http_request"
    && history.Some? && HasRead(RecentTools(history.value, req.agent.id, cfg.lookback))
  }

  function Clamp(x: real): real {
    if x < 0.0 then 0.0 else if x > 1.0 then 1.0 else x
  }

  function Score(profiles: map<string, Profile>, cfg: RiskConfig, req: Request, history: History): real {
    var profile := ProfileOf(profiles, req.tool);
    Clamp(profile.base * 0.4
          + (1.0 - req.agent.trust) * 0.3
          + ParameterRisk(req.params, profile.category) * 0.2
          + ContextRisk(req.context) * 0.1
          + if Chained(cfg, req, history) then 0.35 else 0.0)
  }

  function LevelOf(cfg: RiskConfig, score: real): RiskLevel {
    if score >= cfg.critical then Critical
    else if score >= cfg.high then High
    else if score >= cfg.medium then Medium
    else Low
  }

  datatype Assessment = Assessment(score: real, level: RiskLevel)

  function Assess(profiles: map<string, Profile>, cfg: RiskConfig, req: Request, history: History): Assessment {
    var score := Score(profiles, cfg, req, history);
    Assessment(score, LevelOf(cfg, score))
  }

  // ---------- exact score intervals with the shipped profiles ----------

  /** The scores a tool can have; chained only matters for http_request. */
  function Range(tool: string, chained: bool): (real, real) {
    if tool in READ_TOOLS then (0.04, 0.53)
    else if tool == "write_file" then (0.24, 0.73)
    else if tool == "delete_file" then (0.32, 0.81)
    else if tool == "exec" then (0.36, 0.89)
    else if chained then (0.55, 1.0) else (0.2, 0.67)
  }

  lemma ShippedProfile(tool: string)
    requires tool in BROKER_TOOLS
    ensures ProfileOf(SHIPPED_PROFILES, tool) == SHIPPED_FILE[tool]
  {
  }

  lemma ParameterRiskValues(params: Params, category: string)
    ensures category == "filesystem" ==> 0.0 <= ParameterRisk(params, category) <= 0.7
    ensures category == "execution" ==> 0.0 <= ParameterRisk(params, category) <= 0.9
    ensures category == "network" ==> 0.0 <= ParameterRisk(params, category) <= 0.6
  {
  }

  predicate InRange(s: real, range: (real, real)) {
    range.0 <= s <= range.1
  }

  /** Every score of a broker tool lies in its interval, for all parameters, contexts, trust levels and
      histories. */
  lemma ScoreInRange(cfg: RiskConfig, req: Request, history: History)
    requires req.tool in BROKER_TOOLS
    ensures InRange(Score(SHIPPED_PROFILES, cfg, req, history), Range(req.tool, Chained(cfg, req, history)))
  {
    ShippedProfile(req.tool);
    ParameterRiskValues(req.params, ProfileOf(SHIPPED_PROFILES, req.tool).category);
  }

  /** A request of a tool that is as harmless, or as suspicious, as it can be apart from its trust. */
  function Probe(tool: string, trust: Trust, suspicious: bool): Request {
    var value := if tool == "exec" then "|" else if tool == "http_request" then "http://" else "/";
    Request(Agent("a", None, None, trust), tool,
            if suspicious then map["key" := Str(value)] else map[],
            if suspicious then "hack" else "", NO_AUTH)
  }

  lemma KeyIsSensitive()
    ensures SensitiveKey("key") && SensitiveContext("hack") && !SensitiveContext("")
  {
    assert Lower("key") == "key" == SENSITIVE_WORDS[2];
    assert Lower("hack") == "hack" == SENSITIVE_PHRASES[4];
    assert Lower("") == "";
  }

  lemma ProbeParameterRisk(tool: string, trust: Trust, suspicious: bool)
    requires tool in BROKER_TOOLS
    ensures var r := ParameterRisk(Probe(tool, trust, suspicious).params, SHIPPED_FILE[tool].category);
            r == if !suspicious then 0.0
                 else if tool == "exec" then 0.9
                 else if tool == "http_request" then 0.6
                 else 0.7
  {
    KeyIsSensitive();
    var params := Probe(tool, trust, suspicious).params;
    var needles := CategoryRule(SHIPPED_FILE[tool].category).0;
    if suspicious {
      assert "key" in params;
      assert params["key"].text in needles;
      assert ValueHas(params["key"], needles) by {
        var i :| 0 <= i < |needles| && needles[i] == params["key"].text;
        assert Contains(params["key"].text, needles[i]);
      }
    }
  }

  lemma ProbeScore(cfg: RiskConfig, tool: string, trust: Trust, suspicious: bool, history: History)
    requires tool in BROKER_TOOLS
    ensures var req := Probe(tool, trust, suspicious);
            var extra := if !suspicious then 0.0
                         else if tool == "exec" then 0.23
                         else if tool == "http_request" then 0.17
                         else 0.19;
            Score(SHIPPED_PROFILES, cfg, req, history)
            == Clamp(SHIPPED_FILE[tool].base * 0.4 + (1.0 - trust) * 0.3 + extra
                     + if Chained(cfg, req, history) then 0.35 else 0.0)
  {
    ShippedProfile(tool);
    KeyIsSensitive();
    ProbeParameterRisk(tool, trust, suspicious);
  }

  ghost predicate Reaches(cfg: RiskConfig, tool: string, chained: bool, s: real) {
    exists req: Request, history: History ::
      req.tool == tool && Chained(cfg, req, history) == chained && Score(SHIPPED_PROFILES, cfg, req, history) == s
  }

  lemma ProbeReaches(cfg: RiskConfig, tool: string, history: History, s: real)
    requires tool in BROKER_TOOLS
    requires InRange(s, Range(tool, Chained(cfg, Probe(tool, 0.5, false), history)))
    ensures Reaches(cfg, tool, Chained(cfg, Probe(tool, 0.5, false), history), s)
  {
    var chained := Chained(cfg, Probe(tool, 0.5, false), history);
    var low := Range(tool, chained).0;
    var extra := if tool == "exec" then 0.23 else if tool == "http_request" then 0.17 else 0.19;
    var suspicious := s - low > 0.3;
    var part := if suspicious then s - low - extra else s - low;
    var trust: Trust := if part > 0.3 then 0.0 else 1.0 - part / 0.3;
    assert (1.0 - trust) * 0.3 == if part > 0.3 then 0.3 else part;
    ProbeScore(cfg, tool, trust, suspicious, history);
    var req := Probe(tool, trust, suspicious);
    assert req.tool == tool && Chained(cfg, req, history) == chained;
    assert Score(SHIPPED_PROFILES, cfg, req, history) == s;
  }

  /** An audit row of a file read by the probing agent. */
  const READ_ROW := Row(Uuid("r"), "a", "read_file", map[], 0.1, DbLow, DbAllow, DbAllow, None, None, None,
                        NO_AUTH, None, None, None, 0, 0, None, None)

  /** The intervals are exact: the scores a broker tool can have are all the reals of its interval and
      no others. */
  lemma ScoresAreExactly(cfg: RiskConfig, tool: string, s: real)
    requires tool in BROKER_TOOLS
    ensures Reaches(cfg, tool, false, s) <==> InRange(s, Range(tool, false))
    ensures tool == "http_request" && cfg.chainEnabled && cfg.lookback > 0 ==>
              (Reaches(cfg, tool, true, s) <==> InRange(s, Range(tool, true)))
  {
    forall req: Request, history: History | req.tool == tool && Score(SHIPPED_PROFILES, cfg, req, history) == s
      ensures InRange(s, Range(tool, Chained(cfg, req, history)))
    {
      ScoreInRange(cfg, req, history);
    }
    if InRange(s, Range(tool, false)) {
      ProbeReaches(cfg, tool, None, s);
    }
    if tool == "http_request" && cfg.chainEnabled && cfg.lookback > 0 && InRange(s, Range(tool, true)) {
      var rows := [READ_ROW];
      assert RecentTools(rows, "a", cfg.lookback)[0] == "read_file";
      assert Chained(cfg, Probe(tool, 0.5, false), Some(rows));
      ProbeReaches(cfg, tool, Some(rows), s);
    }
  }

  /** The levels a broker tool can have with the default thresholds. Reads are never HIGH; exec and
      delete_file are never LOW; only a chained http_request can be CRITICAL. */
  lemma LevelsByTool(req: Request, history: History)
    requires req.tool in BROKER_TOOLS
    ensures var level := Assess(SHIPPED_PROFILES, DEFAULT_CONFIG, req, history).level;
            var chained := Chained(DEFAULT_CONFIG, req, history);
            && (req.tool in READ_TOOLS ==> level in {Low, Medium})
            && (req.tool == "write_file" ==> level in {Low, Medium, High})
            && (req.tool in {"delete_file", "exec"} ==> level in {Medium, High})
            && (req.tool == "http_request" && !chained ==> level in {Low, Medium})
            && (req.tool == "http_request" && chained ==> level in {Medium, High, Critical})
  {
    ScoreInRange(DEFAULT_CONFIG, req, history);
  }

  // ---------- the lookback ----------

  /** How many rows of the agent a stretch of the log holds. */
  function CountOf(rows: seq<Row>, agent: string): nat {
    if rows == [] then 0
    else CountOf(rows[..|rows| - 1], agent) + if rows[|rows| - 1].agentId == agent then 1 else 0
  }

  /** The lookback sees a row of the agent exactly while fewer than limit of the agent's rows follow it:
      a read that was logged keeps marking the agent's network calls until then, however many rows of
      other agents are added. */
  lemma {:induction false} LookbackSees(rows: seq<Row>, i: nat, agent: string, limit: nat)
    requires i < |rows| && rows[i].agentId == agent && CountOf(rows[i + 1..], agent) < limit
    ensures rows[i].tool in RecentTools(rows, agent, limit)
    decreases |rows|
  {
    if i == |rows| - 1 {
    } else {
      var front := rows[..|rows| - 1];
      assert rows[i + 1..][..|rows[i + 1..]| - 1] == front[i + 1..];
      assert rows[i + 1..][|rows[i + 1..]| - 1] == rows[|rows| - 1];
      LookbackSees(front, i, agent, if rows[|rows| - 1].agentId == agent then limit - 1 else limit);
    }
  }

  /** And nothing older: every tool it returns is that of one of those rows. */
  lemma {:induction false} LookbackSeesOnly(rows: seq<Row>, agent: string, limit: nat, tool: string) returns (i: nat)
    requires tool in RecentTools(rows, agent, limit)
    ensures i < |rows| && rows[i].agentId == agent && rows[i].tool == tool
    ensures CountOf(rows[i + 1..], agent) < limit
    decreases |rows|
  {
    var front, last := rows[..|rows| - 1], rows[|rows| - 1];
    if last.agentId == agent && last.tool == tool {
      i := |rows| - 1;
    } else {
      i := LookbackSeesOnly(front, agent, if last.agentId == agent then limit - 1 else limit, tool);
      assert rows[i + 1..][..|rows[i + 1..]| - 1] == front[i + 1..];
      assert rows[i + 1..][|rows[i + 1..]| - 1] == last;
    }
  }

  /** The chain rule fires exactly when one of the agent's last lookback rows is a read. */
  lemma ChainedIffRecentRead(cfg: RiskConfig, req: Request, rows: seq<Row>)
    requires cfg.chainEnabled && req.tool == "http_request"
    ensures Chained(cfg, req, Some(rows)) <==>
            exists i | 0 <= i < |rows| ::
              rows[i].agentId == req.agent.id && rows[i].tool in READ_TOOLS
                && CountOf(rows[i + 1..], req.agent.id) < cfg.lookback
  {
    var recent := RecentTools(rows, req.agent.id, cfg.lookback);
    if Chained(cfg, req, Some(rows)) {
      var k :| 0 <= k < |recent| && recent[k] in READ_TOOLS;
      var i := LookbackSeesOnly(rows, req.agent.id, cfg.lookback, recent[k]);
    }
    forall i | 0 <= i < |rows| && rows[i].agentId == req.agent.id && rows[i].tool in READ_TOOLS
               && CountOf(rows[i + 1..], req.agent.id) < cfg.lookback
      ensures Chained(cfg, req, Some(rows))
    {
      LookbackSees(rows, i, req.agent.id, cfg.lookback);
      var k :| 0 <= k < |recent| && recent[k] == rows[i].tool;
    }
  }

  // ---------- the engine ----------

  class RiskEngine {
    const profiles: map<string, Profile>
    const cfg: RiskConfig

    constructor (profiles: map<string, Profile>, cfg: RiskConfig)
      ensures this.profiles == profiles && this.cfg == cfg
    {
      this.profiles := profiles;
      this.cfg := cfg;
    }

    /** Two passes over the parameters: the first value that matches the category, the first sensitive key. */
    method AssessParameters(params: Params, category: string) returns (risk: real)
      ensures risk == ParameterRisk(params, category)
    {
      risk := 0.0;
      var (needles, weight) := CategoryRule(category);
      var todo := params.Keys;
      var found := false;
      while todo != {} && !found
        invariant todo <= params.Keys
        invariant found ==> AnyValueHas(params, needles) && risk == weight
        invariant !found ==> risk == 0.0 && forall k | k in params.Keys - todo :: !ValueHas(params[k], needles)
        decreases todo, !found
      {
        var k :| k in todo;
        if ValueHas(params[k], needles) {
          risk := risk + weight;
          found := true;
        }
        todo := todo - {k};
      }
      todo := params.Keys;
      ghost var before := risk;
      found := false;
      while todo != {} && !found
        invariant todo <= params.Keys
        invariant found ==> AnySensitiveKey(params) && risk == before + 0.4
        invariant !found ==> risk == before && forall k | k in params.Keys - todo :: !SensitiveKey(k)
        decreases todo, !found
      {
        var k :| k in todo;
        if SensitiveKey(k) {
          risk := risk + 0.4;
          found := true;
        }
        todo := todo - {k};
      }
      if risk > 1.0 {
        risk := 1.0;
      }
    }

    method AssessRequest(req: Request, history: History) returns (a: Assessment)
      ensures a == Assess(profiles, cfg, req, history)
    {
      var score := 0.0;
      var profile := ProfileOf(profiles, req.tool);
      score := score + profile.base * 0.4;
      score := score + (1.0 - req.agent.trust) * 0.3;
      var paramRisk := AssessParameters(req.params, profile.category);
      score := score + paramRisk * 0.2;
      score := score + ContextRisk(req.context) * 0.1;
      score := score + if Chained(cfg, req, history) then 0.35 else 0.0;
      score := Clamp(score);
      var level := Low;
      if score >= cfg.critical {
        level := Critical;
      } else if score >= cfg.high {
        level := High;
      } else if score >= cfg.medium {
        level := Medium;
      }
      a := Assessment(score, level);
    }
  }
}
