/** Capability manifests, the check every call has to pass, and what the filesystem adapter then does
    with a permitted call. */
module Capability {
  import opened Base
  import opened Paths

  datatype Allowance = Allowance(
    tool: string, allowedParams: Option<seq<string>>, deniedParams: Option<seq<string>>,
    pathPrefixes: seq<string>, domains: seq<string>, commands: seq<string>)

  datatype Manifest = Manifest(agentId: string, tenant: Option<string>, scope: Option<string>,
                               allowances: seq<Allowance>)

  // ---------- keys ----------

  /** `value or '_'` */
  function Label(s: Option<string>): string {
    if s == None || s.value == "" then "_" else s.value
  }

  function ManifestKey(agentId: string, tenant: Option<string>, scope: Option<string>): string {
    Label(tenant) + "::" + (Label(scope) + "::" + agentId)
  }

  function KeyOf(m: Manifest): string {
    ManifestKey(m.agentId, m.tenant, m.scope)
  }

  /** Two colons start at position i. */
  predicate ColonsAt(s: string, i: int) {
    0 <= i < |s| - 1 && s[i] == ':' && s[i + 1] == ':'
  }

  /** The separator that follows the label is the first one after the label's first character. */
  predicate Safe(x: string) {
    forall i | 1 <= i < |x| :: !ColonsAt(x + "::", i)
  }

  predicate SafeScope(tenant: Option<string>, scope: Option<string>) {
    Safe(Label(tenant)) && Safe(Label(scope))
  }

  lemma SafeCut(x: string, u: string, y: string, v: string)
    requires x != "" && y != "" && Safe(x) && Safe(y) && x + "::" + u == y + "::" + v
    ensures x == y && u == v
  {
    var s := x + "::" + u;
    assert ColonsAt(s, |x|) && ColonsAt(s, |y|);
    assert forall i | 0 <= i < |x| + 2 :: s[i] == (x + "::")[i];
    assert forall i | 0 <= i < |y| + 2 :: s[i] == (y + "::")[i];
    assert |x| < |y| ==> ColonsAt(y + "::", |x|);
    assert |y| < |x| ==> ColonsAt(x + "::", |y|);
    assert x == s[..|x|] && y == s[..|y|];
    assert u == s[|x| + 2..] && v == s[|y| + 2..];
  }

  /** With safe tenants and namespaces a key stands for exactly one agent, tenant and namespace (up to a
      missing one, which is spelled '_'). Agent names are unrestricted, and so are single colons. */
  lemma KeyIsInjective(a: string, t: Option<string>, n: Option<string>, a': string, t': Option<string>,
                       n': Option<string>)
    requires SafeScope(t, n) && SafeScope(t', n')
    ensures ManifestKey(a, t, n) == ManifestKey(a', t', n')
            <==> a == a' && Label(t) == Label(t') && Label(n) == Label(n')
  {
    if ManifestKey(a, t, n) == ManifestKey(a', t', n') {
      SafeCut(Label(t), Label(n) + "::" + a, Label(t'), Label(n') + "::" + a');
      SafeCut(Label(n), a, Label(n'), a');
    }
  }

  /** Cutting at the first separator after the first character gives a safe label. */
  lemma {:induction false} FirstCut(s: string, from: nat, k: nat) returns (x: string, rest: string)
    requires 1 <= from <= k && ColonsAt(s, k) && forall i | 1 <= i < from :: !ColonsAt(s, i)
    ensures x != "" && Safe(x) && s == x + "::" + rest && |x| <= k
    decreases k - from
  {
    if ColonsAt(s, from) {
      x, rest := s[..from], s[from + 2..];
      assert s[..from + 2] == x + "::";
      assert forall i | 1 <= i < from :: ColonsAt(x + "::", i) ==> ColonsAt(s, i);
    } else {
      x, rest := FirstCut(s, from + 1, k);
    }
  }

  /** Every key belongs to an identity with safe tenant and namespace; whoever else has it shares it. */
  lemma KeyHasSafeOwner(a: string, t: Option<string>, n: Option<string>) returns (a': string, t': string, n': string)
    ensures t' != "" && n' != "" && SafeScope(Some(t'), Some(n'))
    ensures ManifestKey(a', Some(t'), Some(n')) == ManifestKey(a, t, n)
    ensures SafeScope(t, n) <==> a' == a && t' == Label(t) && n' == Label(n)
  {
    var s := ManifestKey(a, t, n);
    var (p, q) := (|Label(t)|, |Label(t)| + 2 + |Label(n)|);
    assert ColonsAt(s, p) && ColonsAt(s, q);
    var rest: string;
    t', rest := FirstCut(s, 1, p);
    assert rest == s[|t'| + 2..] && ColonsAt(rest, q - |t'| - 2);
    n', a' := FirstCut(rest, 1, q - |t'| - 2);
    assert s == t' + "::" + (n' + "::" + a');
    if SafeScope(t, n) {
      KeyIsInjective(a, t, n, a', Some(t'), Some(n'));
    }
  }

  /** Unsafe labels are exactly those that make keys ambiguous: an identity shares its key with a different
      one whose labels are safe if and only if its own are not. */
  lemma AmbiguousIffUnsafe(a: string, t: Option<string>, n: Option<string>)
    ensures !SafeScope(t, n)
            <==> exists a': string, t': Option<string>, n': Option<string> ::
                   SafeScope(t', n') && ManifestKey(a', t', n') == ManifestKey(a, t, n)
                   && !(a' == a && Label(t') == Label(t) && Label(n') == Label(n))
  {
    if SafeScope(t, n) {
      forall a': string, t': Option<string>, n': Option<string>
        | SafeScope(t', n') && ManifestKey(a', t', n') == ManifestKey(a, t, n)
        ensures a' == a && Label(t') == Label(t) && Label(n') == Label(n)
      {
        KeyIsInjective(a', t', n', a, t, n);
      }
    } else {
      var a', t', n' := KeyHasSafeOwner(a, t, n);
      assert Label(Some(t')) == t' && Label(Some(n')) == n';
    }
  }

  /** Two pairs of identities that share a key; the second without two colons in any label. */
  lemma KeyIsAmbiguousWithColons()
    ensures ManifestKey("c::d", Some("a"), Some("b")) == ManifestKey("d", Some("a"), Some("b::c"))
    ensures ManifestKey("x", Some("a:"), Some("b")) == ManifestKey("x", Some("a"), Some(":b"))
  {
    assert "b" + "::" + "c::d" == "b::c" + "::" + "d";
    assert "a:" + "::" + ("b" + "::" + "x") == "a" + "::" + (":b" + "::" + "x");
  }

  // ---------- lookup ----------

  /** The manifests dictionary: its entries and the order in which the keys were inserted. */
  datatype Registry = Registry(byKey: map<string, Manifest>, order: seq<string>)

  ghost predicate WellFormed(r: Registry) {
    && (forall k | k in r.order :: k in r.byKey)
    && (forall k | k in r.byKey :: k in r.order && k == KeyOf(r.byKey[k]))
  }

  /** A manifest replaces the one stored under its key, which keeps its place in the order. */
  function Store(r: Registry, m: Manifest): Registry {
    var key := KeyOf(m);
    Registry(r.byKey[key := m], if key in r.byKey then r.order else r.order + [key])
  }

  /** Storing the manifests of a directory; None is a file that could not be read or parsed. */
  function LoadAll(r: Registry, files: seq<Option<Manifest>>): Registry {
    if files == [] then r
    else
      var front := LoadAll(r, files[..|files| - 1]);
      var file := files[|files| - 1];
      if file.Some? then Store(front, file.value) else front
  }

  lemma StoreKeepsWellFormed(r: Registry, m: Manifest)
    requires WellFormed(r)
    ensures WellFormed(Store(r, m))
  {
  }

  /** File i is the last one with its key. */
  ghost predicate LastOfKey(files: seq<Option<Manifest>>, i: nat) {
    && i < |files| && files[i].Some?
    && forall j | i < j < |files| && files[j].Some? :: KeyOf(files[j].value) != KeyOf(files[i].value)
  }

  lemma {:induction false} LoadedIsWellFormed(r: Registry, files: seq<Option<Manifest>>)
    requires WellFormed(r)
    ensures WellFormed(LoadAll(r, files))
  {
    if files == [] {
    } else {
      var (front, file) := (files[..|files| - 1], files[|files| - 1]);
      LoadedIsWellFormed(r, front);
      if file.Some? {
        StoreKeepsWellFormed(LoadAll(r, front), file.value);
      }
    }
  }

  /** After loading, each key maps to the last readable file that has it, ... */
  lemma {:induction false} LastFileWins(r: Registry, files: seq<Option<Manifest>>, i: nat)
    requires LastOfKey(files, i)
    ensures var (loaded, m) := (LoadAll(r, files).byKey, files[i].value); KeyOf(m) in loaded && loaded[KeyOf(m)] == m
  {
    var n := |files| - 1;
    if i == n {
    } else {
      assert LastOfKey(files[..n], i);
      LastFileWins(r, files[..n], i);
    }
  }

  /** ... or to what it mapped to before if no file has it. */
  lemma {:induction false} OtherKeysStay(r: Registry, files: seq<Option<Manifest>>, k: string)
    requires forall i | 0 <= i < |files| && files[i].Some? :: KeyOf(files[i].value) != k
    ensures var loaded := LoadAll(r, files).byKey;
            (k in loaded <==> k in r.byKey) && (k in r.byKey ==> loaded[k] == r.byKey[k])
  {
    if files == [] {
    } else {
      assert files[|files| - 1].Some? ==> KeyOf(files[|files| - 1].value) != k;
      OtherKeysStay(r, files[..|files| - 1], k);
    }
  }

  ghost predicate SafeRegistry(r: Registry) {
    forall k | k in r.byKey :: SafeScope(r.byKey[k].tenant, r.byKey[k].scope)
  }

  predicate FallbackMatch(agent: Agent, m: Manifest) {
    m.agentId == agent.id && (agent.tenant == None || m.tenant == None || m.tenant == agent.tenant)
  }

  function Fallback(r: Registry, agent: Agent, i: nat): Option<Manifest>
    requires i <= |r.order| && forall k | k in r.order :: k in r.byKey
    decreases |r.order| - i
  {
    if i == |r.order| then None
    else if FallbackMatch(agent, r.byKey[r.order[i]]) then Some(r.byKey[r.order[i]])
    else Fallback(r, agent, i + 1)
  }

  function LookupKeys(agent: Agent): seq<string> {
    [ManifestKey(agent.id, agent.tenant, agent.scope), ManifestKey(agent.id, agent.tenant, None),
     ManifestKey(agent.id, None, None)]
  }

  /** Most specific key first, then the first stored manifest of the agent whose tenant fits. */
  function Find(r: Registry, agent: Agent): Option<Manifest>
    requires forall k | k in r.order :: k in r.byKey
  {
    var ks := LookupKeys(agent);
    if ks[0] in r.byKey then Some(r.byKey[ks[0]])
    else if ks[1] in r.byKey then Some(r.byKey[ks[1]])
    else if ks[2] in r.byKey then Some(r.byKey[ks[2]])
    else Fallback(r, agent, 0)
  }

  lemma {:induction false} FallbackFits(r: Registry, agent: Agent, i: nat)
    requires i <= |r.order| && forall k | k in r.order :: k in r.byKey
    ensures Fallback(r, agent, i).Some? ==> FallbackMatch(agent, Fallback(r, agent, i).value)
    ensures Fallback(r, agent, i).None? ==> forall j | i <= j < |r.order| :: !FallbackMatch(agent, r.byKey[r.order[j]])
    decreases |r.order| - i
  {
    if i == |r.order| {
    } else {
      FallbackFits(r, agent, i + 1);
    }
  }

  /** The manifest belongs to the caller, and to its tenant or to none. */
  predicate Own(m: Manifest, agent: Agent) {
    m.agentId == agent.id && m.tenant in {None, Some(""), agent.tenant}
  }

  /** A tenant that is really called '_' is spelled like a missing one. */
  predicate Underscored(m: Manifest, agent: Agent) {
    m.tenant == Some("_") && agent.tenant != Some("_")
  }

  /** Tenant isolation of the lookup, for safe labels: the manifest that is used belongs to the calling
      agent, and for a caller with a tenant it is that tenant's or a tenant-less one unless its tenant is
      called '_'. A caller is refused only if no stored manifest fits. */
  lemma LookupStaysWithAgentAndTenant(r: Registry, agent: Agent)
    requires WellFormed(r) && SafeRegistry(r) && SafeScope(agent.tenant, agent.scope)
    ensures Find(r, agent).Some? ==> Find(r, agent).value.agentId == agent.id
    ensures Find(r, agent).Some? && agent.tenant.Some? ==>
              (Own(Find(r, agent).value, agent) <==> !Underscored(Find(r, agent).value, agent))
    ensures Find(r, agent).None? ==> forall k | k in r.byKey :: !FallbackMatch(agent, r.byKey[k])
  {
    FallbackFits(r, agent, 0);
    var ks := LookupKeys(agent);
    if ks[0] in r.byKey {
      var m := r.byKey[ks[0]];
      KeyIsInjective(m.agentId, m.tenant, m.scope, agent.id, agent.tenant, agent.scope);
    } else if ks[1] in r.byKey {
      var m := r.byKey[ks[1]];
      KeyIsInjective(m.agentId, m.tenant, m.scope, agent.id, agent.tenant, None);
    } else if ks[2] in r.byKey {
      var m := r.byKey[ks[2]];
      KeyIsInjective(m.agentId, m.tenant, m.scope, agent.id, None, None);
    }
  }

  /** Every lookup finds the caller's own manifest if it finds one. */
  ghost predicate Isolated(r: Registry)
    requires WellFormed(r)
  {
    forall agent: Agent | SafeScope(agent.tenant, agent.scope) && agent.tenant.Some? && Find(r, agent).Some? ::
      Own(Find(r, agent).value, agent)
  }

  /** Isolation holds for all callers with a tenant if and only if no stored manifest is of a tenant called
      '_'. */
  lemma IsolatedIffNoUnderscore(r: Registry)
    requires WellFormed(r) && SafeRegistry(r)
    ensures Isolated(r) <==> forall k | k in r.byKey :: r.byKey[k].tenant != Some("_")
  {
    if forall k | k in r.byKey :: r.byKey[k].tenant != Some("_") {
      forall agent: Agent | SafeScope(agent.tenant, agent.scope) && agent.tenant.Some? && Find(r, agent).Some?
        ensures Own(Find(r, agent).value, agent)
      {
        LookupStaysWithAgentAndTenant(r, agent);
        FoundIsStored(r, agent);
      }
    }
    if k :| k in r.byKey && r.byKey[k].tenant == Some("_") {
      var m := r.byKey[k];
      var agent := Agent(m.agentId, Some(""), m.scope, 0.5);
      assert LookupKeys(agent)[0] == KeyOf(m) == k;
      assert !Own(Find(r, agent).value, agent);
    }
  }

  /** The manifest of a tenant called '_' is served to the same agent of any other tenant. */
  lemma UnderscoreServesOthers(id: string, tenant: string, trust: Trust)
    requires tenant != "" && tenant != "_"
    ensures var (m, agent) := (Manifest(id, Some("_"), None, []), Agent(id, Some(tenant), None, trust));
            var r := Store(Registry(map[], []), m);
            WellFormed(r) && Find(r, agent) == Some(m) && !Own(m, agent)
  {
    var (m, agent) := (Manifest(id, Some("_"), None, []), Agent(id, Some(tenant), None, trust));
    StoreKeepsWellFormed(Registry(map[], []), m);
    assert LookupKeys(agent)[2] == KeyOf(m);
  }

  /** A caller with an unsafe tenant or namespace can be served the manifest of a different identity, whose
      labels are safe. */
  lemma UnsafeCallerServedOthers(agent: Agent) returns (m: Manifest)
    requires !SafeScope(agent.tenant, agent.scope)
    ensures var r := Store(Registry(map[], []), m); WellFormed(r) && SafeRegistry(r) && Find(r, agent) == Some(m)
    ensures !(m.agentId == agent.id && Label(m.tenant) == Label(agent.tenant) && Label(m.scope) == Label(agent.scope))
  {
    var a, t, n := KeyHasSafeOwner(agent.id, agent.tenant, agent.scope);
    m := Manifest(a, Some(t), Some(n), []);
    StoreKeepsWellFormed(Registry(map[], []), m);
    assert LookupKeys(agent)[0] == KeyOf(m);
  }

  // ---------- the check ----------

  /** The outcome of is_tool_allowed; a non-string path, URL or command that is not falsy raises. */
  datatype Verdict = Permit | Refuse | Raises

  /** Python's `not value`. */
  predicate Falsy(j: Json) {
    match j
    case Null => true
    case Bool(b) => !b
    case Num(l) => l == "0" || l == "0.0" || l == "-0.0"
    case Str(s) => s == ""
    case Arr(xs) => xs == []
    case Obj(m) => m == map[]
  }

  function Get(params: Params, key: string): Json {
    if key in params then params[key] else Null
  }

  function PathVerdict(path: Json, prefixes: seq<string>): Verdict {
    if Falsy(path) then Refuse
    else if !path.Str? then Raises
    else if PathAllowed(path.text, prefixes) then Permit else Refuse
  }

  function DomainVerdict(url: Json, domains: seq<string>, host: string -> string): Verdict {
    if Falsy(url) then Refuse
    else if !url.Str? then Raises
    else if host(url.text) in domains then Permit else Refuse
  }

  predicate Blank(c: char) {
    c == ' ' || '\t' <= c <= '\r'
  }

  function LStrip(s: string): string {
    if s != "" && Blank(s[0]) then LStrip(s[1..]) else s
  }

  function TrimEnd(s: string): string {
    if s != "" && Blank(s[|s| - 1]) then TrimEnd(s[..|s| - 1]) else s
  }

  predicate CommandAllowed(command: string, allowlist: seq<string>) {
    var c := TrimEnd(LStrip(command));
    exists i | 0 <= i < |allowlist| :: c == allowlist[i] || allowlist[i] + " " <= c
  }

  function CommandVerdict(command: Json, allowlist: seq<string>): Verdict {
    if Falsy(command) then Refuse
    else if !command.Str? then Raises
    else if CommandAllowed(command.text, allowlist) then Permit else Refuse
  }

  predicate ParamsFit(al: Allowance, params: Params) {
    && (al.allowedParams.Some? ==> forall k | k in params :: k in al.allowedParams.value)
    && (al.deniedParams.Some? ==> forall k | k in params :: k !in al.deniedParams.value)
  }

  function AllowanceVerdict(al: Allowance, params: Params, host: string -> string): Verdict {
    if !ParamsFit(al, params) then Refuse
    else
      var byPath := if al.pathPrefixes == [] then Permit else PathVerdict(Get(params, "path"), al.pathPrefixes);
      if byPath != Permit then byPath
      else
        var byHost := if al.domains == [] then Permit else DomainVerdict(Get(params, "url"), al.domains, host);
        if byHost != Permit then byHost
        else if al.commands == [] then Permit
        else CommandVerdict(Get(params, "command"), al.commands)
  }

  function FirstFor(allowances: seq<Allowance>, tool: string): Option<Allowance> {
    if allowances == [] then None
    else if allowances[0].tool == tool then Some(allowances[0])
    else FirstFor(allowances[1..], tool)
  }

  /** The entry that decides the calls of a tool by this agent. */
  function Serving(r: Registry, agent: Agent, tool: string): Option<Allowance>
    requires forall k | k in r.order :: k in r.byKey
  {
    var m := Find(r, agent);
    if m.None? then None else FirstFor(m.value.allowances, tool)
  }

  function ToolVerdict(r: Registry, agent: Agent, tool: string, params: Params, host: string -> string): Verdict
    requires forall k | k in r.order :: k in r.byKey
  {
    var al := Serving(r, agent, tool);
    if al.None? then Refuse else AllowanceVerdict(al.value, params, host)
  }

  lemma FoundIsStored(r: Registry, agent: Agent)
    requires WellFormed(r) && Find(r, agent).Some?
    ensures exists k :: k in r.byKey && r.byKey[k] == Find(r, agent).value
  {
    if forall i | 0 <= i < 3 :: LookupKeys(agent)[i] !in r.byKey {
      var i := FallbackIsStored(r, agent, 0);
      assert r.order[i] in r.byKey;
    }
  }

  lemma {:induction false} FallbackIsStored(r: Registry, agent: Agent, i: nat) returns (j: nat)
    requires i <= |r.order| && (forall k | k in r.order :: k in r.byKey) && Fallback(r, agent, i).Some?
    ensures j < |r.order| && Fallback(r, agent, i) == Some(r.byKey[r.order[j]])
    decreases |r.order| - i
  {
    if FallbackMatch(agent, r.byKey[r.order[i]]) {
      j := i;
    } else {
      j := FallbackIsStored(r, agent, i + 1);
    }
  }

  lemma {:induction false} FirstIsThere(allowances: seq<Allowance>, tool: string) returns (i: nat)
    requires FirstFor(allowances, tool).Some?
    ensures i < |allowances| && FirstFor(allowances, tool) == Some(allowances[i]) && allowances[i].tool == tool
  {
    if allowances[0].tool == tool {
      i := 0;
    } else {
      i := FirstIsThere(allowances[1..], tool);
      i := i + 1;
    }
  }

  lemma ServingIsStored(r: Registry, agent: Agent, tool: string) returns (k: string)
    requires WellFormed(r) && Serving(r, agent, tool).Some?
    ensures k in r.byKey && FirstFor(r.byKey[k].allowances, tool) == Serving(r, agent, tool)
  {
    FoundIsStored(r, agent);
    k :| k in r.byKey && r.byKey[k] == Find(r, agent).value;
  }

  /** Every stored manifest is found by the identity it is written for. */
  lemma StoredServesItsOwn(r: Registry, k: string, trust: Trust)
    requires WellFormed(r) && k in r.byKey
    ensures Find(r, Agent(r.byKey[k].agentId, r.byKey[k].tenant, r.byKey[k].scope, trust)) == Some(r.byKey[k])
  {
    var m := r.byKey[k];
    assert LookupKeys(Agent(m.agentId, m.tenant, m.scope, trust))[0] == KeyOf(m) == k;
  }

  /** One manifest, for this agent, with one entry that restricts nothing. */
  function OneEntry(agent: Agent, tool: string): Registry {
    Store(Registry(map[], []), Manifest(agent.id, agent.tenant, agent.scope, [Allowance(tool, None, None, [], [], [])]))
  }

  lemma OneEntryPermits(agent: Agent, tool: string, params: Params, host: string -> string)
    ensures WellFormed(OneEntry(agent, tool))
    ensures ToolVerdict(OneEntry(agent, tool), agent, tool, params, host) == Permit
  {
    var al := Allowance(tool, None, None, [], [], []);
    var m := Manifest(agent.id, agent.tenant, agent.scope, [al]);
    StoreKeepsWellFormed(Registry(map[], []), m);
    assert LookupKeys(agent)[0] == KeyOf(m);
    assert Find(OneEntry(agent, tool), agent) == Some(m);
    assert FirstFor(m.allowances, tool) == Some(al);
    assert AllowanceVerdict(al, params, host) == Permit;
  }

  /** The manager: its dictionary is filled once from the manifest files and then only read. */
  class CapabilityManager {
    var registry: Registry
    const host: string -> string

    constructor (host: string -> string)
      ensures this.host == host && registry == Registry(map[], []) && WellFormed(registry)
    {
      this.host := host;
      registry := Registry(map[], []);
    }

    /** Loads the files in directory order. */
    method LoadManifests(files: seq<Option<Manifest>>)
      requires WellFormed(registry)
      modifies this`registry
      ensures registry == LoadAll(old(registry), files) && WellFormed(registry)
    {
      LoadedIsWellFormed(registry, files);
      var i := 0;
      while i < |files|
        invariant i <= |files|
        invariant registry == LoadAll(old(registry), files[..i])
      {
        assert files[..i + 1][..i] == files[..i];
        if files[i].Some? {
          var m := files[i].value;
          var key := KeyOf(m);
          registry := Registry(registry.byKey[key := m],
                               if key in registry.byKey then registry.order else registry.order + [key]);
        }
        i := i + 1;
      }
      assert files[..|files|] == files;
    }

    method FindManifest(agent: Agent) returns (m: Option<Manifest>)
      requires WellFormed(registry)
      ensures m == Find(registry, agent)
    {
      var keys := LookupKeys(agent);
      var i := 0;
      while i < |keys|
        invariant i <= |keys|
        invariant forall j | 0 <= j < i :: keys[j] !in registry.byKey
      {
        if keys[i] in registry.byKey {
          return Some(registry.byKey[keys[i]]);
        }
        i := i + 1;
      }
      var n := 0;
      while n < |registry.order|
        invariant n <= |registry.order|
        invariant Find(registry, agent) == Fallback(registry, agent, n)
      {
        var candidate := registry.byKey[registry.order[n]];
        if candidate.agentId == agent.id {
          if !(agent.tenant != None && candidate.tenant != None && candidate.tenant != agent.tenant) {
            return Some(candidate);
          }
        }
        n := n + 1;
      }
      return None;
    }

    /** The any() over the prefixes: the first one that matches decides. */
    method AnyMatches(normal: string, prefixes: seq<string>) returns (found: bool)
      ensures found <==> exists i | 0 <= i < |prefixes| :: NormalMatches(normal, NormPath(prefixes[i]))
    {
      for i := 0 to |prefixes|
        invariant forall j | 0 <= j < i :: !NormalMatches(normal, NormPath(prefixes[j]))
      {
        if NormalMatches(normal, NormPath(prefixes[i])) {
          return true;
        }
      }
      return false;
    }

    /** _path_allowed */
    method CheckPath(path: Json, prefixes: seq<string>) returns (v: Verdict)
      ensures v == PathVerdict(path, prefixes)
    {
      if Falsy(path) {
        return Refuse;
      }
      if !path.Str? {
        return Raises;
      }
      var found := AnyMatches(NormPath(path.text), prefixes);
      return if found then Permit else Refuse;
    }

    /** _command_allowed: the stripped command is an entry, or an entry and a space begin it. */
    method CheckCommand(command: Json, allowlist: seq<string>) returns (v: Verdict)
      ensures v == CommandVerdict(command, allowlist)
    {
      if Falsy(command) {
        return Refuse;
      }
      if !command.Str? {
        return Raises;
      }
      var c := TrimEnd(LStrip(command.text));
      for i := 0 to |allowlist|
        invariant forall j | 0 <= j < i :: !(c == allowlist[j] || allowlist[j] + " " <= c)
      {
        if c == allowlist[i] || allowlist[i] + " " <= c {
          return Permit;
        }
      }
      return Refuse;
    }

    method IsToolAllowed(agent: Agent, tool: string, params: Params) returns (v: Verdict)
      requires WellFormed(registry)
      ensures v == ToolVerdict(registry, agent, tool, params, host)
    {
      var m := FindManifest(agent);
      if m.None? {
        return Refuse;
      }
      var al := FirstFor(m.value.allowances, tool);
      if al.None? {
        return Refuse;
      }
      var allowance := al.value;
      if allowance.allowedParams.Some? {
        var todo := params.Keys;
        while todo != {}
          invariant todo <= params.Keys
          invariant forall k | k in params.Keys - todo :: k in allowance.allowedParams.value
          decreases todo
        {
          var k :| k in todo;
          if k !in allowance.allowedParams.value {
            return Refuse;
          }
          todo := todo - {k};
        }
      }
      if allowance.deniedParams.Some? {
        var todo := params.Keys;
        while todo != {}
          invariant todo <= params.Keys
          invariant forall k | k in params.Keys - todo :: k !in allowance.deniedParams.value
          decreases todo
        {
          var k :| k in todo;
          if k in allowance.deniedParams.value {
            return Refuse;
          }
          todo := todo - {k};
        }
      }
      if allowance.pathPrefixes != [] {
        var byPath := CheckPath(Get(params, "path"), allowance.pathPrefixes);
        if byPath != Permit { return byPath; }
      }
      if allowance.domains != [] {
        var byHost := DomainVerdict(Get(params, "url"), allowance.domains, host);
        if byHost != Permit { return byHost; }
      }
      if allowance.commands != [] {
        var byCommand := CheckCommand(Get(params, "command"), allowance.commands);
        if byCommand != Permit { return byCommand; }
      }
      return Permit;
    }
  }

  // ---------- what the adapter does with the call ----------

  const FS_TOOLS: set<string> := {"read_file", "write_file", "delete_file", "list_directory"}

  function OwnOperation(tool: string): string
    requires tool in FS_TOOLS
  {
    if tool == "read_file" then "read"
    else if tool == "write_file" then "write"
    else if tool == "delete_file" then "delete"
    else "list"
  }

  /** _normalize_call: the operation is filled in unless the caller already names one. */
  function NormalizeParams(tool: string, params: Params): Params {
    if tool in FS_TOOLS && "operation" !in params then params["operation" := Str(OwnOperation(tool))] else params
  }

  datatype FsOp = Read | Write(content: Json) | List | Delete

  /** The adapter's plan for a call: an operation on a target, an error result, or an exception. */
  datatype Plan = Act(op: FsOp, target: Comps) | ErrorResult | AdapterRaises

  /** FilesystemAdapter.execute up to the file operation itself. */
  function PlanCall(base: Comps, params: Params): Plan {
    var operation := if "operation" in params then params["operation"] else Str("read");
    var path := Get(params, "path");
    if Falsy(path) || !path.Str? then AdapterRaises
    else
      var r := ResolvePath(base, path.text);
      if r.Escapes? then AdapterRaises
      else if operation == Str("read") then Act(Read, r.target)
      else if operation == Str("write") then
        if Get(params, "content") == Null then ErrorResult else Act(Write(Get(params, "content")), r.target)
      else if operation == Str("list") then Act(List, r.target)
      else if operation == Str("delete") then Act(Delete, r.target)
      else ErrorResult
  }

  predicate OwnAct(tool: string, op: FsOp)
    requires tool in FS_TOOLS
  {
    match op
    case Read => tool == "read_file"
    case Write(_) => tool == "write_file"
    case List => tool == "list_directory"
    case Delete => tool == "delete_file"
  }

  /** The operation that runs is the tool's own one for every path that resolves, exactly when the call
      does not name another operation; nothing else in the call matters. */
  lemma OperationFollowsToolIffUnnamed(base: Comps, tool: string, params: Params)
    requires tool in FS_TOOLS
    requires PlanCall(base, NormalizeParams(tool, params)).Act?
    ensures OwnAct(tool, PlanCall(base, NormalizeParams(tool, params)).op)
            <==> ("operation" in params ==> params["operation"] == Str(OwnOperation(tool)))
  {
    assert OwnOperation("read_file") == "read" && OwnOperation("write_file") == "write";
    assert OwnOperation("delete_file") == "delete" && OwnOperation("list_directory") == "list";
    var words := ["read", "write", "delete", "list"];
    assert |"read"| == 4 && |"write"| == 5 && |"delete"| == 6 && |"list"| == 4 && "read"[0] != "list"[0];
  }

  /** The entry does not let a call name the operation: its list of parameters leaves it out, or it is
      denied. */
  predicate ForbidsOperation(al: Allowance) {
    || (al.allowedParams.Some? && "operation" !in al.allowedParams.value)
    || (al.deniedParams.Some? && "operation" in al.deniedParams.value)
  }

  /** A manifest entry for a filesystem tool that forbids naming the operation and has inward path
      prefixes. */
  predicate ClosedFsAllowance(al: Allowance) {
    && ForbidsOperation(al)
    && al.pathPrefixes != [] && forall i | 0 <= i < |al.pathPrefixes| :: Inward(al.pathPrefixes[i])
  }

  /** The entry permits this call, and the adapter acts on it. */
  predicate Acts(al: Allowance, tool: string, params: Params, host: string -> string, base: Comps) {
    AllowanceVerdict(al, params, host) == Permit && PlanCall(base, NormalizeParams(tool, params)).Act?
  }

  /** An operation that is not the tool's own. */
  function ForeignOperation(tool: string): string {
    if tool == "delete_file" then "read" else "delete"
  }

  lemma NamingKeepsTheRest(al: Allowance, tool: string, params: Params, host: string -> string, base: Comps)
    requires tool in FS_TOOLS && !ForbidsOperation(al) && Acts(al, tool, params, host, base)
    ensures var named := params["operation" := Str(ForeignOperation(tool))];
            && Acts(al, tool, named, host, base)
            && !OwnAct(tool, PlanCall(base, NormalizeParams(tool, named)).op)
            && PlanCall(base, NormalizeParams(tool, named)).target
               == PlanCall(base, NormalizeParams(tool, params)).target
  {
    var named := params["operation" := Str(ForeignOperation(tool))];
    assert Get(named, "path") == Get(params, "path") == Get(NormalizeParams(tool, params), "path");
    assert Get(named, "url") == Get(params, "url") && Get(named, "command") == Get(params, "command");
    assert ParamsFit(al, named);
    assert named["operation"] == Str("delete") || named["operation"] == Str("read");
    assert |"read"| == 4 && |"write"| == 5 && |"delete"| == 6 && "read"[0] != "list"[0];
  }

  predicate ActsForeign(al: Allowance, tool: string, params: Params, host: string -> string, base: Comps)
    requires tool in FS_TOOLS
  {
    Acts(al, tool, params, host, base) && !OwnAct(tool, PlanCall(base, NormalizeParams(tool, params)).op)
  }

  /** No call that the entry permits, and that the adapter acts on, performs another operation than the
      tool's own one. */
  ghost predicate Tame(al: Allowance, tool: string, host: string -> string, base: Comps) {
    ForbidsOperation(al) || !exists params: Params :: Acts(al, tool, params, host, base)
  }

  /** Which entries let a permitted call perform another tool's operation: exactly those that permit some
      call at all and do not forbid naming the operation. */
  lemma ForeignIffNotForbidden(al: Allowance, tool: string, host: string -> string, base: Comps)
    requires tool in FS_TOOLS
    ensures (exists params: Params :: ActsForeign(al, tool, params, host, base)) <==> !Tame(al, tool, host, base)
  {
    if params: Params :| Acts(al, tool, params, host, base) {
      if !ForbidsOperation(al) {
        NamingKeepsTheRest(al, tool, params, host, base);
        assert ActsForeign(al, tool, params["operation" := Str(ForeignOperation(tool))], host, base);
      }
    }
    if params: Params :| ActsForeign(al, tool, params, host, base) {
      assert Acts(al, tool, params, host, base);
      PermittedFits(al, params, host);
      OperationFollowsToolIffUnnamed(base, tool, params);
    }
  }

  lemma PermittedFits(al: Allowance, params: Params, host: string -> string)
    requires AllowanceVerdict(al, params, host) == Permit
    ensures ParamsFit(al, params) && (ForbidsOperation(al) ==> "operation" !in params)
  {
  }

  /** End to end, for every caller, tool, path string and base: a permitted filesystem call performs the
      tool's own operation on a target below one of the manifest's prefixes, or returns an error
      because its content is missing. It is never turned away for leaving the base. */
  lemma PermittedCallIsConfined(r: Registry, agent: Agent, tool: string, params: Params, host: string -> string,
                                base: Comps, al: Allowance)
    requires forall k | k in r.order :: k in r.byKey
    requires tool in FS_TOOLS
    requires Serving(r, agent, tool) == Some(al) && ClosedFsAllowance(al)
    requires ToolVerdict(r, agent, tool, params, host) == Permit
    ensures ConfinedAct(base, tool, params, al)
  {
    assert AllowanceVerdict(al, params, host) == Permit;
    PermitChecksPath(al, params, host);
    ConfinedPlan(al, tool, params, base);
  }

  /** The plan is the tool's own operation below one of the prefixes, or a missing-content error. */
  ghost predicate ConfinedAct(base: Comps, tool: string, params: Params, al: Allowance)
    requires tool in FS_TOOLS
  {
    var plan := PlanCall(base, NormalizeParams(tool, params));
    || (plan.ErrorResult? && tool == "write_file" && Get(params, "content") == Null)
    || (plan.Act? && OwnAct(tool, plan.op)
        && exists i | 0 <= i < |al.pathPrefixes| :: base + NormComps(al.pathPrefixes[i]) <= plan.target)
  }

  lemma PermitChecksPath(al: Allowance, params: Params, host: string -> string)
    requires AllowanceVerdict(al, params, host) == Permit && al.pathPrefixes != []
    ensures ParamsFit(al, params)
    ensures "path" in params && params["path"].Str? && PathAllowed(params["path"].text, al.pathPrefixes)
  {
  }

  lemma ConfinedPlan(al: Allowance, tool: string, params: Params, base: Comps)
    requires tool in FS_TOOLS && ClosedFsAllowance(al) && ParamsFit(al, params)
    requires "path" in params && params["path"].Str? && PathAllowed(params["path"].text, al.pathPrefixes)
    ensures ConfinedAct(base, tool, params, al)
  {
    var path := params["path"].text;
    AllowedIsConfined(base, path, al.pathPrefixes);
    PlanOfOwnOperation(base, tool, params);
  }

  lemma PlanOfOwnOperation(base: Comps, tool: string, params: Params)
    requires tool in FS_TOOLS && "operation" !in params
    requires "path" in params && params["path"].Str? && params["path"].text != ""
    requires ResolvePath(base, params["path"].text).Resolved?
    ensures var plan := PlanCall(base, NormalizeParams(tool, params));
            || (plan.ErrorResult? && tool == "write_file" && Get(params, "content") == Null)
            || (plan.Act? && OwnAct(tool, plan.op) && plan.target == ResolvePath(base, params["path"].text).target)
  {
    var normal := NormalizeParams(tool, params);
    assert normal["path"] == params["path"];
    if PlanCall(base, normal).Act? {
      OperationFollowsToolIffUnnamed(base, tool, params);
    } else {
      assert Get(normal, "content") == Get(params, "content");
    }
  }

  // ---------- the shipped manifest ----------

  const SHIPPED_FS: seq<Allowance> := [
    Allowance("read_file", Some(["path"]), None, ["README.md", "docs", "policies", "src", "tests"], [], []),
    Allowance("list_directory", Some(["path"]), None, [".", "docs", "policies", "src", "tests"], [], []),
    Allowance("write_file", Some(["path", "content"]), None, ["docs", "policies", "src", "tests"], [], [])]

  predicate PlainName(s: string) {
    Proper(s) && s != ".."
  }

  lemma NameIsInward(s: string)
    requires PlainName(s) || s == "."
    ensures Inward(s)
  {
    SplitPlain(s);
    assert [s][1..] == [];
    assert PlainName(s) ==> NormLoop(false, [], [s]) == NormLoop(false, [s], []);
  }

  lemma OperationIsUnlisted(i: nat)
    requires i < |SHIPPED_FS|
    ensures SHIPPED_FS[i].allowedParams.Some? && "operation" !in SHIPPED_FS[i].allowedParams.value
  {
    assert |"operation"| == 9 && |"path"| == 4 && |"content"| == 7;
  }

  lemma ShippedPrefixIsPlain(i: nat, k: nat)
    requires i < |SHIPPED_FS| && k < |SHIPPED_FS[i].pathPrefixes|
    ensures PlainName(SHIPPED_FS[i].pathPrefixes[k]) || SHIPPED_FS[i].pathPrefixes[k] == "."
  {
  }

  /** The filesystem entries of the shipped manifest satisfy the conditions of the confinement theorem. */
  lemma ShippedManifestIsClosed(i: nat)
    requires i < |SHIPPED_FS|
    ensures ClosedFsAllowance(SHIPPED_FS[i])
  {
    OperationIsUnlisted(i);
    forall k | 0 <= k < |SHIPPED_FS[i].pathPrefixes| ensures Inward(SHIPPED_FS[i].pathPrefixes[k]) {
      ShippedPrefixIsPlain(i, k);
      NameIsInward(SHIPPED_FS[i].pathPrefixes[k]);
    }
  }
}
