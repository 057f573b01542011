/** Policy evaluation: the built-in fallback, the shipped Rego bundle with the conflict rule of complete
    rules, the availability modes, and the kernel's final decision. */
module Policy {
  import opened Base
  import opened Risk

  datatype Evaluation = Evaluation(decision: Decision, ruleIds: seq<string>, message: Option<string>)

  /** str(params.get(name, "")).startswith(prefix) and Rego's startswith on the same parameter. The
      prefixes in use start with '/' or 'h', which the printed form of no other JSON value does; in Rego
      the test is undefined, hence not true, for a missing or non-string value. */
  predicate ParamStarts(params: Params, name: string, prefix: string) {
    name in params && params[name].Str? && prefix <= params[name].text
  }

  // ---------- the built-in fallback ----------

  function EvaluateSimple(req: Request, level: RiskLevel): Evaluation {
    if req.agent.tenant == None || req.agent.tenant.value == "" then
      Evaluation(Deny, ["simple_missing_tenant_scope"], Some("Tenant scope required"))
    else if level == Critical then
      Evaluation(Deny, ["simple_fallback_critical_risk"], Some("Critical risk level"))
    else if req.tool == "delete_file" then
      if ParamStarts(req.params, "path", "/") && !ParamStarts(req.params, "path", "/tmp/") then
        Evaluation(Deny, ["simple_deny_destructive_target"], Some("Deleting non-temporary absolute paths is denied"))
      else
        Evaluation(ApprovalRequired, ["simple_delete_requires_approval"], Some("Delete operations require approval"))
    else if req.tool in {"exec", "shell", "network", "write_file"} then
      Evaluation(ApprovalRequired, ["simple_fallback_high_risk_tool"],
                 Some("Tool '" + req.tool + "' requires approval"))
    else if req.tool == "http_request" then
      if ParamStarts(req.params, "url", "http://") then
        Evaluation(Sandbox, ["simple_http_requires_sandbox"], Some("Plain HTTP requests require sandboxing"))
      else if ParamStarts(req.params, "url", "https://") then
        Evaluation(Allow, ["simple_allow_https_request"], Some("HTTPS request allowed"))
      else
        Evaluation(ApprovalRequired, ["simple_http_unknown_scheme"], Some("Unrecognized HTTP target requires approval"))
    else if level == High then
      Evaluation(Sandbox, ["simple_fallback_high_risk"], Some("High risk level, execution in sandbox"))
    else
      Evaluation(Allow, ["simple_fallback_allow"], Some("Allowed by simple policy"))
  }

  // ---------- the Rego bundle ----------

  /** A value of the rule `allow`. */
  datatype Doc = Doc(allow: bool, decision: string, message: string, ruleIds: seq<string>)

  const DEFAULT_DOC := Doc(false, "deny", "Denied by default", ["default_deny"])
  const DENY_DOC := Doc(false, "deny", "Critical risk, missing tenant scope, or destructive target denied",
                        ["deny_guardrail"])
  const APPROVAL_DOC := Doc(false, "approval_required",
                            "High-risk tool or sensitive target requires approval", ["approval_required_high_risk"])
  const SANDBOX_DOC := Doc(false, "sandbox", "High-risk execution path requires sandbox", ["sandbox_required"])
  const READ_DOC := Doc(true, "allow", "Read-only filesystem access allowed", ["allow_read_file"])
  const LIST_DOC := Doc(true, "allow", "Directory listing allowed", ["allow_list_directory"])
  const HTTPS_DOC := Doc(true, "allow", "HTTPS requests to allowed domains are permitted", ["allow_https_request"])

  predicate DeniesMatch(req: Request, level: RiskLevel) {
    || level == Critical
    || req.agent.tenant == None
    || (req.tool == "delete_file" && ParamStarts(req.params, "path", "/") && !ParamStarts(req.params, "path", "/tmp/"))
  }

  predicate ApprovalsMatch(req: Request) {
    || req.tool in {"exec", "shell", "http_request", "write_file", "delete_file", "network"}
    || (req.tool == "http_request" && !ParamStarts(req.params, "url", "https://"))
    || (req.tool == "write_file" && ParamStarts(req.params, "path", "/etc"))
  }

  predicate SandboxMatch(req: Request, level: RiskLevel) {
    || level == High
    || req.tool == "exec"
    || (req.tool == "http_request" && ParamStarts(req.params, "url", "http://"))
  }

  function When(holds: bool, doc: Doc): seq<Doc> {
    if holds then [doc] else []
  }

  /** The values of all definitions of `allow` whose bodies hold. */
  function Fired(req: Request, level: RiskLevel): seq<Doc> {
    When(DeniesMatch(req, level), DENY_DOC)
    + When(ApprovalsMatch(req), APPROVAL_DOC)
    + When(SandboxMatch(req, level), SANDBOX_DOC)
    + When(req.tool == "read_file" && req.agent.tenant != None, READ_DOC)
    + When(req.tool == "list_directory" && req.agent.tenant != None, LIST_DOC)
    + When(req.tool == "http_request" && ParamStarts(req.params, "url", "https://") && req.agent.tenant != None
           && !ApprovalsMatch(req), HTTPS_DOC)
  }

  /** What the policy server returns: a document, whose fields may be missing, or a failure. */
  datatype Reply = Answer(decision: Option<string>, message: Option<string>, ruleIds: seq<string>) | Failed

  /** A complete rule has one value: none fired gives the default, different values are an error. */
  function CompleteRule(fired: seq<Doc>): Reply {
    if fired == [] then Answer(Some(DEFAULT_DOC.decision), Some(DEFAULT_DOC.message), DEFAULT_DOC.ruleIds)
    else if forall i | 0 <= i < |fired| :: fired[i] == fired[0] then
      Answer(Some(fired[0].decision), Some(fired[0].message), fired[0].ruleIds)
    else Failed
  }

  function Bundle(req: Request, level: RiskLevel): Reply {
    CompleteRule(Fired(req, level))
  }

  // ---------- the engine ----------

  /** The decision map; a missing decision counts as "deny", as does any unknown text. */
  function MapDecision(text: Option<string>): Decision {
    var t := Lower(if text.Some? then text.value else "deny");
    if t == "allow" then Allow
    else if t == "approval_required" then ApprovalRequired
    else if t == "sandbox" then Sandbox
    else if t == "quarantine" then Quarantine
    else Deny
  }

  /** evaluate: with no server configured, or after a failure that the mode does not settle, the fallback
      decides. */
  function Evaluate(req: Request, level: RiskLevel, server: bool, mode: string, reply: Reply): Evaluation {
    if server then
      match reply
      case Answer(decision, message, ruleIds) => Evaluation(MapDecision(decision), ruleIds, message)
      case Failed =>
        if mode == "strict" then
          Evaluation(Deny, ["strict_policy_unavailable"], Some("OPA unavailable in strict mode"))
        else if mode == "degraded" && req.tool in {"exec", "delete_file", "http_request"} then
          Evaluation(Sandbox, ["degraded_policy_unavailable_high_risk"],
                     Some("OPA unavailable, high-risk action forced into sandbox/degraded mode"))
        else EvaluateSimple(req, level)
    else EvaluateSimple(req, level)
  }

  /** _determine_final_decision */
  function FinalDecision(tool: string, policy: Decision, level: RiskLevel, sandboxType: string): Decision {
    if policy == Allow && level == Critical then ApprovalRequired
    else if policy == Sandbox && sandboxType == "none" then ApprovalRequired
    else if tool in {"http_request", "write_file", "delete_file"} then ApprovalRequired
    else if tool == "exec" then ApprovalRequired
    else policy
  }

  /** Gated tools are never allowed by policy alone, whatever the server answers. */
  lemma GatedNeedApproval(tool: string, policy: Decision, level: RiskLevel, sandboxType: string)
    ensures FinalDecision(tool, policy, level, sandboxType) == ApprovalRequired <==>
            || tool in GATED_TOOLS || policy == ApprovalRequired
            || (policy == Allow && level == Critical) || (policy == Sandbox && sandboxType == "none")
  {
  }

  // ---------- parity ----------

  lemma MapDocs()
    ensures MapDecision(Some("deny")) == Deny && MapDecision(Some("allow")) == Allow
    ensures MapDecision(Some("approval_required")) == ApprovalRequired && MapDecision(Some("sandbox")) == Sandbox
  {
    assert Lower("deny") == "deny" && Lower("allow") == "allow";
    assert Lower("approval_required") == "approval_required" && Lower("sandbox") == "sandbox";
  }

  /** What the bundle answers for the two read tools. */
  function ReadReply(req: Request, level: RiskLevel): Reply {
    var doc := if req.tool == "read_file" then READ_DOC else LIST_DOC;
    if req.agent.tenant == None then
      if level == High then Failed else Answer(Some("deny"), Some(DENY_DOC.message), DENY_DOC.ruleIds)
    else if level == High || level == Critical then Failed
    else Answer(Some("allow"), Some(doc.message), doc.ruleIds)
  }

  lemma BundleOnReads(req: Request, level: RiskLevel)
    requires req.tool in READ_TOOLS
    ensures Bundle(req, level) == ReadReply(req, level)
  {
    var fired := Fired(req, level);
    var doc := if req.tool == "read_file" then READ_DOC else LIST_DOC;
    if req.agent.tenant == None {
      assert fired == if level == High then [DENY_DOC, SANDBOX_DOC] else [DENY_DOC];
      assert level == High ==> fired[0] != fired[1];
    } else {
      assert fired == if level == Critical then [DENY_DOC, doc]
                      else if level == High then [SANDBOX_DOC, doc]
                      else [doc];
      assert level in {High, Critical} ==> fired[0] != fired[1];
    }
  }

  /** The two ways the bundle and the fallback can lead the kernel apart: a tenant that is present but
      empty, and strict mode on a HIGH read. */
  predicate Diverges(req: Request, level: RiskLevel, mode: string) {
    && req.tool in READ_TOOLS
    && req.agent.tenant.Some?
    && (if req.agent.tenant.value == "" then level in {Low, Medium} else mode == "strict" && level == High)
  }

  /** Policy parity through the kernel, for every broker tool, parameters, tenant, risk level, mode and
      sandbox type: evaluating with the shipped bundle gives the same final decision as the fallback if
      and only if none of those two cases applies. */
  lemma ParityIff(req: Request, level: RiskLevel, mode: string, sandboxType: string)
    requires req.tool in BROKER_TOOLS
    ensures FinalDecision(req.tool, Evaluate(req, level, true, mode, Bundle(req, level)).decision, level, sandboxType)
            == FinalDecision(req.tool, EvaluateSimple(req, level).decision, level, sandboxType)
            <==> !Diverges(req, level, mode)
  {
    var reply := Bundle(req, level);
    if req.tool in READ_TOOLS {
      BundleOnReads(req, level);
      ReadParity(req, level, mode, sandboxType, reply);
    } else {
      GatedNeedApproval(req.tool, Evaluate(req, level, true, mode, reply).decision, level, sandboxType);
      GatedNeedApproval(req.tool, EvaluateSimple(req, level).decision, level, sandboxType);
    }
  }

  lemma ReadParity(req: Request, level: RiskLevel, mode: string, sandboxType: string, reply: Reply)
    requires req.tool in READ_TOOLS && reply == ReadReply(req, level)
    ensures FinalDecision(req.tool, Evaluate(req, level, true, mode, reply).decision, level, sandboxType)
            == FinalDecision(req.tool, EvaluateSimple(req, level).decision, level, sandboxType)
            <==> !Diverges(req, level, mode)
  {
    MapDocs();
  }

  /** In degraded mode a missing or non-empty tenant is enough. */
  lemma DegradedParity(req: Request, level: RiskLevel, sandboxType: string)
    requires req.tool in BROKER_TOOLS && req.agent.tenant != Some("")
    ensures FinalDecision(req.tool, Evaluate(req, level, true, "degraded", Bundle(req, level)).decision,
                          level, sandboxType)
            == FinalDecision(req.tool, EvaluateSimple(req, level).decision, level, sandboxType)
  {
    ParityIff(req, level, "degraded", sandboxType);
  }

  /** With the shipped risk profiles a read is never HIGH, so then it is enough in every mode. */
  lemma ShippedParity(req: Request, history: History, mode: string, sandboxType: string)
    requires req.tool in BROKER_TOOLS && req.agent.tenant != Some("")
    ensures var level := Assess(SHIPPED_PROFILES, DEFAULT_CONFIG, req, history).level;
            FinalDecision(req.tool, Evaluate(req, level, true, mode, Bundle(req, level)).decision, level, sandboxType)
            == FinalDecision(req.tool, EvaluateSimple(req, level).decision, level, sandboxType)
  {
    var level := Assess(SHIPPED_PROFILES, DEFAULT_CONFIG, req, history).level;
    LevelsByTool(req, history);
    ParityIff(req, level, mode, sandboxType);
  }

  /** The policy-level decisions themselves do differ: for exec the bundle conflicts with itself, and
      degraded mode answers SANDBOX where the fallback answers APPROVAL_REQUIRED. */
  lemma PolicyDecisionsDiffer(req: Request)
    requires req.tool == "exec" && req.agent.tenant.Some? && req.agent.tenant.value != ""
    ensures Bundle(req, Medium) == Failed
    ensures Evaluate(req, Medium, true, "degraded", Bundle(req, Medium)).decision == Sandbox
    ensures EvaluateSimple(req, Medium).decision == ApprovalRequired
  {
    assert Fired(req, Medium) == [APPROVAL_DOC, SANDBOX_DOC];
    assert Fired(req, Medium)[0] != Fired(req, Medium)[1];
  }
}
