/** The sliding-window limiter: every action is recorded first and counted afterwards. */
module RateLimit {
  import opened Base

  /** A row of quota_events. The id is assigned when the row is committed, in commit order. */
  datatype Event = Event(id: nat, agent: string, tenant: Option<string>, tool: string, kind: string, createdAt: int)

  /** The settings; the two threshold tables are parsed from JSON text, malformed text gives an empty one. */
  datatype Limits = Limits(window: int, burst: int, perTool: map<string, int>, perTenant: map<string, int>)

  datatype Scope = ByDefault | ByTenant | ByTool

  /** What record_and_check reports. */
  datatype Quota = Quota(agentCount: nat, toolCount: nat, blocked: bool, threshold: int, scope: Scope)

  // ---------- thresholds ----------

  function TenantThreshold(l: Limits, tenant: Option<string>): Option<int> {
    if tenant.Some? && tenant.value != "" && tenant.value in l.perTenant then Some(l.perTenant[tenant.value]) else None
  }

  function ToolThreshold(l: Limits, tool: string): Option<int> {
    if tool in l.perTool then Some(l.perTool[tool]) else None
  }

  function ScopeOf(l: Limits, tenant: Option<string>, tool: string): Scope {
    if TenantThreshold(l, tenant).Some? then ByTenant
    else if ToolThreshold(l, tool).Some? then ByTool
    else ByDefault
  }

  function ThresholdOf(l: Limits, tenant: Option<string>, tool: string): int {
    if TenantThreshold(l, tenant).Some? then TenantThreshold(l, tenant).value
    else if ToolThreshold(l, tool).Some? then ToolThreshold(l, tool).value
    else l.burst
  }

  // ---------- counting ----------

  function AgentHits(table: set<Event>, agent: string, since: int): set<Event> {
    set e | e in table && e.agent == agent && e.createdAt >= since
  }

  function ToolHits(table: set<Event>, agent: string, tool: string, since: int): set<Event> {
    set e | e in table && e.agent == agent && e.tool == tool && e.createdAt >= since
  }

  /** The rows that are counted against the effective threshold of an action. */
  function ScopedHits(l: Limits, table: set<Event>, e: Event): set<Event> {
    if ScopeOf(l, e.tenant, e.tool) == ByTool then ToolHits(table, e.agent, e.tool, e.createdAt - l.window)
    else AgentHits(table, e.agent, e.createdAt - l.window)
  }

  /** The count step of the action recorded as e, run on the table as it is then. */
  function Check(l: Limits, table: set<Event>, e: Event): Quota {
    var since := e.createdAt - l.window;
    Quota(|AgentHits(table, e.agent, since)|, |ToolHits(table, e.agent, e.tool, since)|,
          |ScopedHits(l, table, e)| > ThresholdOf(l, e.tenant, e.tool),
          ThresholdOf(l, e.tenant, e.tool), ScopeOf(l, e.tenant, e.tool))
  }

  lemma SubsetCount<T>(a: set<T>, b: set<T>)
    requires a <= b
    ensures |a| <= |b|
  {
    assert b == a + (b - a);
  }

  // ---------- any number of concurrent calls ----------

  /** One database step of a call: committing its row, or counting for a row committed earlier. Steps of
      different calls interleave freely, and the clock readings are arbitrary. */
  datatype Step = Commit(agent: string, tenant: Option<string>, tool: string, now: int) | Count(event: Event)

  /** The shared table, the next id, and the results of the calls that have counted. */
  datatype State = State(table: set<Event>, next: nat, results: map<Event, Quota>)

  const INITIAL := State({}, 0, map[])

  predicate Enabled(s: State, step: Step) {
    step.Count? ==> step.event in s.table && step.event !in s.results
  }

  function Apply(l: Limits, s: State, step: Step): State {
    match step
    case Commit(agent, tenant, tool, now) =>
      State(s.table + {Event(s.next, agent, tenant, tool, "action", now)}, s.next + 1, s.results)
    case Count(e) =>
      s.(results := s.results[e := Check(l, s.table, e)])
  }

  /** The two steps of one call with nothing in between. */
  function RecordThenCount(l: Limits, s: State, agent: string, tenant: Option<string>, tool: string,
                           now: int): (t: State)
    ensures Event(s.next, agent, tenant, tool, "action", now) in t.results
  {
    Apply(l, Apply(l, s, Commit(agent, tenant, tool, now)), Count(Event(s.next, agent, tenant, tool, "action", now)))
  }

  ghost predicate IsRun(l: Limits, states: seq<State>, steps: seq<Step>) {
    && |states| == |steps| + 1
    && states[0] == INITIAL
    && forall k | 0 <= k < |steps| :: Enabled(states[k], steps[k]) && states[k + 1] == Apply(l, states[k], steps[k])
  }

  /** The rows that were committed no later than e. */
  function UpTo(table: set<Event>, e: Event): set<Event> {
    set x | x in table && x.id <= e.id
  }

  /** Ids are unique, and an action that went through had at most a threshold's worth of rows committed
      up to its own. */
  ghost predicate Inv(l: Limits, s: State) {
    && (forall e | e in s.table :: e.id < s.next)
    && (forall e, x | e in s.table && x in s.table && e.id == x.id :: e == x)
    && (forall e | e in s.results :: e in s.table)
    && (forall e | e in s.results && !s.results[e].blocked ::
          |ScopedHits(l, UpTo(s.table, e), e)| <= ThresholdOf(l, e.tenant, e.tool))
  }

  lemma StepKeepsInv(l: Limits, s: State, step: Step)
    requires Inv(l, s) && Enabled(s, step)
    ensures Inv(l, Apply(l, s, step))
  {
    var t := Apply(l, s, step);
    forall e | e in t.results && !t.results[e].blocked
      ensures |ScopedHits(l, UpTo(t.table, e), e)| <= ThresholdOf(l, e.tenant, e.tool)
    {
      if step.Commit? {
        assert UpTo(t.table, e) == UpTo(s.table, e);
      } else if e == step.event {
        SubsetCount(ScopedHits(l, UpTo(t.table, e), e), ScopedHits(l, s.table, e));
      }
    }
  }

  /** A first action is stopped only by a threshold that lets nothing through. */
  lemma FirstPasses(l: Limits, agent: string, tenant: Option<string>, tool: string, now: int)
    ensures var e := Event(0, agent, tenant, tool, "action", now);
            var q := RecordThenCount(l, INITIAL, agent, tenant, tool, now).results[e];
            && (ThresholdOf(l, tenant, tool) >= 1 ==> !q.blocked)
            && (ThresholdOf(l, tenant, tool) < 1 && l.window >= 0 ==> q.blocked)
  {
    var e := Event(0, agent, tenant, tool, "action", now);
    var hits := ScopedHits(l, INITIAL.table + {e}, e);
    SubsetCount(hits, {e});
    if l.window >= 0 {
      assert e in hits;
      SubsetCount({e}, hits);
    }
  }

  lemma RecordThenCountKeepsInv(l: Limits, s: State, agent: string, tenant: Option<string>, tool: string, now: int)
    requires Inv(l, s)
    ensures Inv(l, RecordThenCount(l, s, agent, tenant, tool, now))
    ensures Event(s.next, agent, tenant, tool, "action", now) !in s.results
  {
    var s1 := Apply(l, s, Commit(agent, tenant, tool, now));
    StepKeepsInv(l, s, Commit(agent, tenant, tool, now));
    StepKeepsInv(l, s1, Count(Event(s.next, agent, tenant, tool, "action", now)));
  }

  lemma {:induction false} RunKeepsInv(l: Limits, states: seq<State>, steps: seq<Step>, k: nat)
    requires IsRun(l, states, steps) && k <= |steps|
    ensures Inv(l, states[k])
  {
    if k == 0 {
    } else {
      RunKeepsInv(l, states, steps, k - 1);
      StepKeepsInv(l, states[k - 1], steps[k - 1]);
    }
  }

  lemma Latest(es: set<Event>) returns (z: Event)
    requires es != {}
    ensures z in es && forall e | e in es :: e.id <= z.id
  {
    z :| z in es;
    if es != {z} {
      var rest := es - {z};
      assert es == rest + {z};
      var y := Latest(rest);
      if z.id < y.id { z := y; }
    }
  }

  /** Actions of one agent that went through and were stamped in the closed interval of one window starting
      at from: all of one tool, or else none that counts against a tool's own threshold. */
  ghost predicate Passed(l: Limits, s: State, es: set<Event>, agent: string, tool: Option<string>, from: int) {
    forall e | e in es ::
      && e in s.results && !s.results[e].blocked
      && e.agent == agent && from <= e.createdAt <= from + l.window
      && (if tool.None? then ScopeOf(l, e.tenant, e.tool) != ByTool else e.tool == tool.value)
  }

  lemma PassedBound(l: Limits, s: State, es: set<Event>, agent: string, tool: Option<string>, from: int, limit: int)
    requires Inv(l, s) && Passed(l, s, es, agent, tool, from)
    requires forall e | e in es :: ThresholdOf(l, e.tenant, e.tool) <= limit
    ensures es == {} || |es| <= limit
  {
    if es != {} {
      var z := Latest(es);
      var counted := ScopedHits(l, UpTo(s.table, z), z);
      assert es <= counted;
      SubsetCount(es, counted);
    }
  }

  /** The sliding-window bound. Whatever the interleaving and whatever the clocks, in every closed
      interval of one window at most a threshold's worth of an agent's actions go through: the one that
      was committed last had all the others in its count. */
  lemma WindowBound(l: Limits, states: seq<State>, steps: seq<Step>, es: set<Event>, agent: string,
                    tool: Option<string>, from: int, limit: int)
    requires IsRun(l, states, steps)
    requires Passed(l, states[|steps|], es, agent, tool, from)
    requires forall e | e in es :: ThresholdOf(l, e.tenant, e.tool) <= limit
    ensures es == {} || |es| <= limit
  {
    RunKeepsInv(l, states, steps, |steps|);
    PassedBound(l, states[|steps|], es, agent, tool, from, limit);
  }

  /** Under the shipped defaults (no tool or tenant thresholds) the bound is the burst threshold. */
  lemma DefaultWindowBound(l: Limits, states: seq<State>, steps: seq<Step>, es: set<Event>, agent: string, from: int)
    requires IsRun(l, states, steps) && l.perTool == map[] && l.perTenant == map[]
    requires forall e | e in es :: e in states[|steps|].results && !states[|steps|].results[e].blocked
               && e.agent == agent && from <= e.createdAt <= from + l.window
    ensures es == {} || |es| <= l.burst
  {
    WindowBound(l, states, steps, es, agent, None, from, l.burst);
  }

  // ---------- pruning ----------

  function Pruned(table: set<Event>, cutoff: int): set<Event> {
    set e | e in table && !(e.createdAt < cutoff)
  }

  /** What one prune costs a later count, exactly: the pruned rows that were still in the window, for the
      agent and for the agent with one tool. */
  lemma PruneChangesCountBy(table: set<Event>, agent: string, tool: string, since: int, cutoff: int)
    ensures |AgentHits(Pruned(table, cutoff), agent, since)|
            == |AgentHits(table, agent, since)| - |set e | e in AgentHits(table, agent, since) && e.createdAt < cutoff|
    ensures |ToolHits(Pruned(table, cutoff), agent, tool, since)|
            == |ToolHits(table, agent, tool, since)|
               - |set e | e in ToolHits(table, agent, tool, since) && e.createdAt < cutoff|
  {
    var lost := set e | e in AgentHits(table, agent, since) && e.createdAt < cutoff;
    assert AgentHits(Pruned(table, cutoff), agent, since) == AgentHits(table, agent, since) - lost;
    var lostOfTool := set e | e in ToolHits(table, agent, tool, since) && e.createdAt < cutoff;
    assert ToolHits(Pruned(table, cutoff), agent, tool, since) == ToolHits(table, agent, tool, since) - lostOfTool;
  }

  /** Database steps of calls, and prunes, which come from a process of their own and fall anywhere between
      them. */
  datatype Move = Call(step: Step) | Prune(olderThan: int, now: int)

  function Cutoff(m: Move): int
    requires m.Prune?
  {
    m.now - m.olderThan
  }

  predicate Counts(m: Move) {
    m.Call? && m.step.Count?
  }

  /** A move on the table as it is ... */
  function Moved(l: Limits, s: State, m: Move): State {
    match m
    case Call(step) => Apply(l, s, step)
    case Prune(olderThan, now) => s.(table := Pruned(s.table, now - olderThan))
  }

  /** ... and on a table that is never pruned. */
  function Unpruned(l: Limits, s: State, m: Move): State {
    if m.Call? then Apply(l, s, m.step) else s
  }

  /** The same moves on both. A call counts once after its commit, whether or not its row is still there. */
  ghost predicate IsTwinRun(l: Limits, ps: seq<State>, fs: seq<State>, moves: seq<Move>) {
    && |ps| == |fs| == |moves| + 1
    && ps[0] == fs[0] == INITIAL
    && forall k | 0 <= k < |moves| ::
         && (moves[k].Call? ==> Enabled(fs[k], moves[k].step))
         && ps[k + 1] == Moved(l, ps[k], moves[k]) && fs[k + 1] == Unpruned(l, fs[k], moves[k])
  }

  /** Every row that a count for e would find without prunes is still there. */
  ghost predicate Whole(l: Limits, p: State, f: State, e: Event) {
    AgentHits(f.table, e.agent, e.createdAt - l.window) <= p.table
  }

  /** A count gives what it would give on the never-pruned table exactly if no row of the agent is missing in
      its window. */
  lemma SameCheckIffWhole(l: Limits, p: State, f: State, e: Event)
    requires p.table <= f.table
    ensures Check(l, p.table, e) == Check(l, f.table, e) <==> Whole(l, p, f, e)
  {
    var since := e.createdAt - l.window;
    var (seen, all) := (AgentHits(p.table, e.agent, since), AgentHits(f.table, e.agent, since));
    assert all == seen + (all - seen);
    if Whole(l, p, f, e) {
      assert seen == all && ToolHits(p.table, e.agent, e.tool, since) == ToolHits(f.table, e.agent, e.tool, since);
      assert ScopedHits(l, p.table, e) == ScopedHits(l, f.table, e);
    }
  }

  lemma BothGrow(m: map<Event, Quota>, n: map<Event, Quota>, e: Event, a: Quota, b: Quota)
    requires e !in m && e !in n
    ensures m[e := a] == n[e := b] <==> m == n && a == b
  {
    assert m[e := a][e] == a && n[e := b][e] == b;
    assert m == m[e := a] - {e} && n == n[e := b] - {e};
  }

  /** The pruned table lags behind the other in rows and in nothing else. */
  ghost predicate Twins(l: Limits, p: State, f: State) {
    && p.table <= f.table && p.next == f.next && p.results.Keys == f.results.Keys && Inv(l, f)
  }

  lemma {:induction false} TwinsStay(l: Limits, ps: seq<State>, fs: seq<State>, moves: seq<Move>, n: nat)
    requires IsTwinRun(l, ps, fs, moves) && n <= |moves|
    ensures Twins(l, ps[n], fs[n])
  {
    if n == 0 {
    } else {
      TwinsStay(l, ps, fs, moves, n - 1);
      if moves[n - 1].Call? {
        StepKeepsInv(l, fs[n - 1], moves[n - 1].step);
      }
    }
  }

  lemma MoveTellsApart(l: Limits, p: State, f: State, m: Move)
    requires Twins(l, p, f) && (m.Call? ==> Enabled(f, m.step))
    ensures Moved(l, p, m).results == Unpruned(l, f, m).results
            <==> p.results == f.results && (Counts(m) ==> Whole(l, p, f, m.step.event))
  {
    if Counts(m) {
      var e := m.step.event;
      SameCheckIffWhole(l, p, f, e);
      BothGrow(p.results, f.results, e, Check(l, p.table, e), Check(l, f.table, e));
    }
  }

  /** No count of the first n moves misses a row in its window. */
  ghost predicate Undisturbed(l: Limits, ps: seq<State>, fs: seq<State>, moves: seq<Move>, n: nat)
    requires n <= |moves| < |ps| && |moves| < |fs|
  {
    forall k | 0 <= k < n && Counts(moves[k]) :: Whole(l, ps[k], fs[k], moves[k].step.event)
  }

  /** When pruning is invisible, exactly: with prunes anywhere and any clocks, all results are those of the
      never-pruned table if and only if no count misses a row in its window. */
  lemma {:induction false} InvisibleIffUndisturbed(l: Limits, ps: seq<State>, fs: seq<State>, moves: seq<Move>, n: nat)
    requires IsTwinRun(l, ps, fs, moves) && n <= |moves|
    ensures ps[n].results == fs[n].results <==> Undisturbed(l, ps, fs, moves, n)
  {
    if n == 0 {
    } else {
      InvisibleIffUndisturbed(l, ps, fs, moves, n - 1);
      TwinsStay(l, ps, fs, moves, n - 1);
      MoveTellsApart(l, ps[n - 1], fs[n - 1], moves[n - 1]);
    }
  }

  /** A row that is missing was older than the cutoff of some prune so far. */
  lemma {:induction false} MissingWasPruned(l: Limits, ps: seq<State>, fs: seq<State>, moves: seq<Move>, n: nat,
                                            x: Event)
    returns (j: nat)
    requires IsTwinRun(l, ps, fs, moves) && n <= |moves| && x in fs[n].table && x !in ps[n].table
    ensures j < n && moves[j].Prune? && x.createdAt < Cutoff(moves[j])
  {
    TwinsStay(l, ps, fs, moves, n - 1);
    if x in fs[n - 1].table && x !in ps[n - 1].table {
      j := MissingWasPruned(l, ps, fs, moves, n - 1, x);
    } else {
      j := n - 1;
    }
  }

  /** No prune reaches into the window of a count that comes after it. */
  ghost predicate Spared(l: Limits, moves: seq<Move>) {
    forall j, k | 0 <= j < k < |moves| && moves[j].Prune? && Counts(moves[k]) ::
      Cutoff(moves[j]) <= moves[k].step.event.createdAt - l.window
  }

  /** Pruning is invisible, for any clocks, if no prune reaches into the window of a later count. */
  lemma PruningIsInvisible(l: Limits, ps: seq<State>, fs: seq<State>, moves: seq<Move>)
    requires IsTwinRun(l, ps, fs, moves) && Spared(l, moves)
    ensures ps[|moves|].results == fs[|moves|].results && Undisturbed(l, ps, fs, moves, |moves|)
  {
    forall k, x | 0 <= k < |moves| && Counts(moves[k])
                  && x in AgentHits(fs[k].table, moves[k].step.event.agent, moves[k].step.event.createdAt - l.window)
      ensures x in ps[k].table
    {
      if x !in ps[k].table {
        var j := MissingWasPruned(l, ps, fs, moves, k, x);
      }
    }
    InvisibleIffUndisturbed(l, ps, fs, moves, |moves|);
  }

  /** The window bound with prunes: it holds on the pruned table as long as no count was disturbed. */
  lemma PrunedWindowBound(l: Limits, ps: seq<State>, fs: seq<State>, moves: seq<Move>, es: set<Event>, agent: string,
                          tool: Option<string>, from: int, limit: int)
    requires IsTwinRun(l, ps, fs, moves) && Undisturbed(l, ps, fs, moves, |moves|)
    requires Passed(l, ps[|moves|], es, agent, tool, from)
    requires forall e | e in es :: ThresholdOf(l, e.tenant, e.tool) <= limit
    ensures es == {} || |es| <= limit
  {
    InvisibleIffUndisturbed(l, ps, fs, moves, |moves|);
    TwinsStay(l, ps, fs, moves, |moves|);
    PassedBound(l, fs[|moves|], es, agent, tool, from, limit);
  }

  // ---------- prudent prunes ----------

  /** The clock reading of a move; a count uses that of its commit. */
  function Reading(m: Move): Option<int> {
    match m
    case Call(Commit(_, _, _, now)) => Some(now)
    case Call(Count(_)) => None
    case Prune(_, now) => Some(now)
  }

  ghost predicate NeverBack(moves: seq<Move>) {
    forall i, j | 0 <= i < j < |moves| && Reading(moves[i]).Some? && Reading(moves[j]).Some? ::
      Reading(moves[i]).value <= Reading(moves[j]).value
  }

  /** A prune keeps a window, counted from now and from every row that is still to be counted. */
  ghost predicate Prudent(l: Limits, f: State, m: Move) {
    m.Prune? ==>
      && l.window <= m.olderThan
      && forall e | e in f.table && e !in f.results :: Cutoff(m) <= e.createdAt - l.window
  }

  lemma {:induction false} CommittedBetween(l: Limits, ps: seq<State>, fs: seq<State>, moves: seq<Move>, j: nat, k: nat,
                                            e: Event)
    returns (i: nat)
    requires IsTwinRun(l, ps, fs, moves) && j <= k <= |moves| && e in fs[k].table
    ensures || (e in fs[j].table && (e !in fs[k].results ==> e !in fs[j].results))
            || (j <= i < k && Reading(moves[i]) == Some(e.createdAt))
    decreases k
  {
    i := j;
    if j == k {
    } else if e in fs[k - 1].table {
      i := CommittedBetween(l, ps, fs, moves, j, k - 1, e);
    } else {
      i := k - 1;
    }
  }

  /** With a clock that does not go back, prunes that keep a window from now and from every pending row spare
      all later counts. */
  lemma PrudentSpares(l: Limits, ps: seq<State>, fs: seq<State>, moves: seq<Move>)
    requires IsTwinRun(l, ps, fs, moves) && NeverBack(moves)
    requires forall j | 0 <= j < |moves| :: Prudent(l, fs[j], moves[j])
    ensures Spared(l, moves)
  {
    forall j, k | 0 <= j < k < |moves| && moves[j].Prune? && Counts(moves[k])
      ensures Cutoff(moves[j]) <= moves[k].step.event.createdAt - l.window
    {
      assert Prudent(l, fs[j], moves[j]) && Enabled(fs[k], moves[k].step);
      var i := CommittedBetween(l, ps, fs, moves, j, k, moves[k].step.event);
    }
  }

  const ONE_A_MINUTE := Limits(60, 1, map[], map[])

  const EARLY := Event(0, "a", None, "t", "action", 0)

  const LATE := Event(1, "a", None, "t", "action", 60)

  /** Counting for LATE after a prune at 121 that keeps 60 seconds, and without it. */
  lemma PruneHidesBoth()
    ensures Pruned({EARLY, LATE}, 61) == {}
    ensures !Check(ONE_A_MINUTE, {EARLY}, EARLY).blocked && !Check(ONE_A_MINUTE, {}, LATE).blocked
    ensures Check(ONE_A_MINUTE, {EARLY, LATE}, LATE).blocked
  {
    assert AgentHits({EARLY}, "a", -60) == {EARLY};
    assert AgentHits({EARLY, LATE}, "a", 0) == {EARLY, LATE};
    assert AgentHits({}, "a", 0) == {};
  }

  /** These moves lead to these two states. */
  ghost predicate Lead(l: Limits, moves: seq<Move>, p: State, f: State) {
    exists ps: seq<State>, fs: seq<State> ::
      IsTwinRun(l, ps, fs, moves) && ps[|moves|] == p && fs[|moves|] == f
  }

  lemma LeadOn(l: Limits, moves: seq<Move>, p: State, f: State, m: Move)
    requires Lead(l, moves, p, f) && (m.Call? ==> Enabled(f, m.step))
    ensures Lead(l, moves + [m], Moved(l, p, m), Unpruned(l, f, m))
  {
    var ps: seq<State>, fs: seq<State> :| IsTwinRun(l, ps, fs, moves) && ps[|moves|] == p && fs[|moves|] == f;
    assert IsTwinRun(l, ps + [Moved(l, p, m)], fs + [Unpruned(l, f, m)], moves + [m]);
  }

  function CommitOf(e: Event): Move {
    Call(Commit(e.agent, e.tenant, e.tool, e.createdAt))
  }

  lemma LeadCommit(l: Limits, moves: seq<Move>, s: State, e: Event, t: State)
    requires Lead(l, moves, s, s) && e == Event(s.next, e.agent, e.tenant, e.tool, "action", e.createdAt)
    requires t == State(s.table + {e}, s.next + 1, s.results)
    ensures Lead(l, moves + [CommitOf(e)], t, t)
  {
    LeadOn(l, moves, s, s, CommitOf(e));
  }

  lemma LeadCount(l: Limits, moves: seq<Move>, p: State, f: State, e: Event)
    requires Lead(l, moves, p, f) && e in f.table && e !in f.results
    ensures Lead(l, moves + [Call(Count(e))], p.(results := p.results[e := Check(l, p.table, e)]),
                 f.(results := f.results[e := Check(l, f.table, e)]))
  {
    LeadOn(l, moves, p, f, Call(Count(e)));
  }

  lemma LeadPrune(l: Limits, moves: seq<Move>, s: State, olderThan: int, now: int)
    requires Lead(l, moves, s, s)
    ensures Lead(l, moves + [Prune(olderThan, now)], s.(table := Pruned(s.table, now - olderThan)), s)
  {
    LeadOn(l, moves, s, s, Prune(olderThan, now));
  }

  /** A first call, a second one up to its commit, a prune at 121 that keeps 60 seconds, the second count. */
  const HASTY: seq<Move> :=
    [] + [CommitOf(EARLY)] + [Call(Count(EARLY))] + [CommitOf(LATE)] + [Prune(60, 121)] + [Call(Count(LATE))]

  lemma HastyLeads(l: Limits, q: Quota) returns (p: State, f: State)
    requires q == Check(l, {EARLY}, EARLY)
    ensures Lead(l, HASTY, p, f)
    ensures p.results == map[EARLY := q, LATE := Check(l, {}, LATE)]
    ensures f.results == map[EARLY := q, LATE := Check(l, {EARLY, LATE}, LATE)]
  {
    var m1 := [] + [CommitOf(EARLY)];
    var m2 := m1 + [Call(Count(EARLY))];
    var m3 := m2 + [CommitOf(LATE)];
    var s1 := State({EARLY}, 1, map[]);
    var s2 := s1.(results := map[EARLY := q]);
    var s3 := State({EARLY, LATE}, 2, s2.results);
    assert IsTwinRun(l, [INITIAL], [INITIAL], []);
    assert {EARLY} == {} + {EARLY} && {EARLY, LATE} == {EARLY} + {LATE};
    LeadCommit(l, [], INITIAL, EARLY, s1);
    LeadCount(l, m1, s1, s1, EARLY);
    LeadCommit(l, m2, s2, LATE, s3);
    LeadPrune(l, m3, s3, 60, 121);
    PruneHidesBoth();
    LeadCount(l, m3 + [Prune(60, 121)], s3.(table := {}), s3, LATE);
    p := State({}, 2, s2.results[LATE := Check(l, {}, LATE)]);
    f := State({EARLY, LATE}, 2, s2.results[LATE := Check(l, {EARLY, LATE}, LATE)]);
  }

  /** Keeping a window from now alone is not enough: a prune between the commit and the count of a call takes
      a row out of that call's window. On a clock that does not go back two actions pass in one window where
      one is allowed, and without the prune the second one is blocked. */
  lemma PendingCountSeesPrune() returns (p: State, f: State)
    ensures Lead(ONE_A_MINUTE, HASTY, p, f) && NeverBack(HASTY)
    ensures forall j | 0 <= j < |HASTY| && HASTY[j].Prune? :: ONE_A_MINUTE.window <= HASTY[j].olderThan
    ensures Passed(ONE_A_MINUTE, p, {EARLY, LATE}, "a", None, 0) && ONE_A_MINUTE.burst == 1
    ensures LATE in f.results && f.results[LATE].blocked
  {
    PruneHidesBoth();
    p, f := HastyLeads(ONE_A_MINUTE, Check(ONE_A_MINUTE, {EARLY}, EARLY));
  }

  // ---------- the service ----------

  datatype Summary = Summary(total: nat, agents: set<string>, perTool: map<string, nat>, perTenant: map<string, nat>)

  function ToolKey(e: Event): string {
    e.tool
  }

  function TenantKey(e: Event): string {
    if e.tenant == None || e.tenant.value == "" then "default" else e.tenant.value
  }

  class RateLimitService {
    const limits: Limits
    var table: set<Event>
    var next: nat
    /** The results given so far. */
    ghost var results: map<Event, Quota>

    ghost function Now(): State
      reads this
    {
      State(table, next, results)
    }

    ghost predicate Valid()
      reads this
    {
      && (forall e | e in table :: e.id < next)
      && (forall e, x | e in table && x in table && e.id == x.id :: e == x)
    }

    constructor (limits: Limits)
      ensures Valid() && this.limits == limits && Now() == INITIAL
    {
      this.limits := limits;
      table, next, results := {}, 0, map[];
    }

    /** Records the action and counts, without anything in between: the two steps of the concurrent
        protocol in a row. */
    method RecordAndCheck(agent: string, tenant: Option<string>, tool: string, now: int) returns (q: Quota)
      requires Valid()
      modifies this`table, this`next, this`results
      ensures Valid()
      ensures Now() == RecordThenCount(limits, old(Now()), agent, tenant, tool, now)
      ensures q == Now().results[Event(old(next), agent, tenant, tool, "action", now)]
    {
      var row := Event(next, agent, tenant, tool, "action", now);
      table := table + {row};
      next := next + 1;
      var since := now - limits.window;
      var agentCount := |AgentHits(table, agent, since)|;
      var toolCount := |ToolHits(table, agent, tool, since)|;
      var tenantThreshold := TenantThreshold(limits, tenant);
      var toolThreshold := ToolThreshold(limits, tool);
      if tenantThreshold.Some? {
        q := Quota(agentCount, toolCount, agentCount > tenantThreshold.value, tenantThreshold.value, ByTenant);
      } else if toolThreshold.Some? {
        q := Quota(agentCount, toolCount, toolCount > toolThreshold.value, toolThreshold.value, ByTool);
      } else {
        q := Quota(agentCount, toolCount, agentCount > limits.burst, limits.burst, ByDefault);
      }
      results := results[row := q];
    }

    method PruneEvents(olderThan: int, now: int) returns (deleted: nat)
      requires Valid()
      modifies this`table
      ensures Valid()
      ensures table == Pruned(old(table), now - olderThan)
      ensures deleted == |old(table)| - |table|
    {
      var cutoff := now - olderThan;
      var gone := set e | e in table && e.createdAt < cutoff;
      deleted := |gone|;
      assert table - gone == Pruned(table, cutoff);
      table := table - gone;
    }

    /** The per-tool and per-tenant totals of the rows that pass the filters. */
    method Summarise(agent: Option<string>, tenant: Option<string>, limitSeconds: Option<int>,
                     now: int) returns (s: Summary)
      ensures var rows := Selected(table, agent, tenant, limitSeconds, now);
              && s.total == |rows|
              && s.agents == (set e | e in rows :: e.agent)
              && Totals(rows, ToolKey, s.perTool)
              && Totals(rows, TenantKey, s.perTenant)
    {
      var rows := Selected(table, agent, tenant, limitSeconds, now);
      var perTool: map<string, nat>, perTenant: map<string, nat> := map[], map[];
      var todo := rows;
      while todo != {}
        invariant todo <= rows
        invariant Totals(rows - todo, ToolKey, perTool)
        invariant Totals(rows - todo, TenantKey, perTenant)
        decreases todo
      {
        var row :| row in todo;
        var key := TenantKey(row);
        assert rows - (todo - {row}) == (rows - todo) + {row};
        AddOne(rows - todo, row, ToolKey, perTool);
        AddOne(rows - todo, row, TenantKey, perTenant);
        perTool := perTool[row.tool := (if row.tool in perTool then perTool[row.tool] else 0) + 1];
        perTenant := perTenant[key := (if key in perTenant then perTenant[key] else 0) + 1];
        todo := todo - {row};
      }
      assert rows - todo == rows;
      s := Summary(|rows|, set e | e in rows :: e.agent, perTool, perTenant);
    }
  }

  function WithKey(rows: set<Event>, key: Event -> string, t: string): set<Event> {
    set e | e in rows && key(e) == t
  }

  /** The map counts the rows by key: exactly the keys that occur, each with its number of rows. */
  ghost predicate Totals(rows: set<Event>, key: Event -> string, counts: map<string, nat>) {
    && (forall e | e in rows :: key(e) in counts)
    && (forall t | t in counts :: counts[t] == |WithKey(rows, key, t)| > 0)
  }

  lemma WithKeyGrows(rows: set<Event>, row: Event, key: Event -> string, t: string)
    requires row !in rows
    ensures |WithKey(rows + {row}, key, t)| == |WithKey(rows, key, t)| + if key(row) == t then 1 else 0
  {
    if key(row) == t {
      assert WithKey(rows + {row}, key, t) == WithKey(rows, key, t) + {row};
    } else {
      assert WithKey(rows + {row}, key, t) == WithKey(rows, key, t);
    }
  }

  lemma AddOne(rows: set<Event>, row: Event, key: Event -> string, counts: map<string, nat>)
    requires Totals(rows, key, counts) && row !in rows
    ensures Totals(rows + {row}, key, counts[key(row) := (if key(row) in counts then counts[key(row)] else 0) + 1])
  {
    var k := key(row);
    if k !in counts {
      assert WithKey(rows, key, k) == {};
    }
    forall t ensures |WithKey(rows + {row}, key, t)| == |WithKey(rows, key, t)| + if k == t then 1 else 0 {
      WithKeyGrows(rows, row, key, t);
    }
  }

  /** Python's filters: an empty agent or tenant and a zero limit are not applied. */
  function Selected(table: set<Event>, agent: Option<string>, tenant: Option<string>, limitSeconds: Option<int>,
                    now: int): set<Event> {
    set e | e in table
            && (agent == None || agent.value == "" || e.agent == agent.value)
            && (tenant == None || tenant.value == "" || e.tenant == tenant)
            && (limitSeconds == None || limitSeconds.value == 0 || e.createdAt >= now - limitSeconds.value)
  }
}
