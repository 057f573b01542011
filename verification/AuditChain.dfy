/** The tamper-evident audit log: hash-chained rows, their verifier and checkpoints.

    The digest (SHA-256 of the canonical JSON text) is a parameter H of every statement. Nothing is
    assumed about it: where a claim needs two digests to differ, the alternative is a concrete pair of
    distinct payloads with the same digest, built from the logs at hand. */
module AuditChain {
  import opened Base

  // ---------- what is hashed ----------

  /** The dictionary that is encoded and hashed, by the writer and by the verifier. */
  datatype Payload = Payload(
    prevHash: Option<string>, requestId: string, agentId: string, tool: string, params: Params,
    riskScore: real, riskLevel: string, policyDecision: string, finalDecision: string,
    approvalId: Option<string>, replayedFrom: Option<string>, sandboxId: Option<string>,
    error: Option<string>, auth: Auth)

  type Hash = Payload -> string

  ghost predicate Collision(H: Hash, p: (Payload, Payload)) {
    p.0 != p.1 && H(p.0) == H(p.1)
  }

  // ---------- the two enum families and their common texts ----------

  datatype DbRiskLevel = DbLow | DbMedium | DbHigh | DbCritical

  datatype DbDecision = DbAllow | DbDeny | DbApprovalRequired | DbSandbox | DbQuarantine

  function LevelValue(l: RiskLevel): string {
    match l
    case Low => "low"
    case Medium => "medium"
    case High => "high"
    case Critical => "critical"
  }

  function DecisionValue(d: Decision): string {
    match d
    case Allow => "allow"
    case Deny => "deny"
    case ApprovalRequired => "approval_required"
    case Sandbox => "sandbox"
    case Quarantine => "quarantine"
  }

  /** Looking a database enum up by value; an unknown value raises ValueError (None). */
  function DbLevel(value: string): Option<DbRiskLevel> {
    if value == "low" then Some(DbLow)
    else if value == "medium" then Some(DbMedium)
    else if value == "high" then Some(DbHigh)
    else if value == "critical" then Some(DbCritical)
    else None
  }

  function DbDecisionOf(value: string): Option<DbDecision> {
    if value == "allow" then Some(DbAllow)
    else if value == "deny" then Some(DbDeny)
    else if value == "approval_required" then Some(DbApprovalRequired)
    else if value == "sandbox" then Some(DbSandbox)
    else if value == "quarantine" then Some(DbQuarantine)
    else None
  }

  function DbLevelValue(l: DbRiskLevel): string {
    match l
    case DbLow => "low"
    case DbMedium => "medium"
    case DbHigh => "high"
    case DbCritical => "critical"
  }

  function DbDecisionValue(d: DbDecision): string {
    match d
    case DbAllow => "allow"
    case DbDeny => "deny"
    case DbApprovalRequired => "approval_required"
    case DbSandbox => "sandbox"
    case DbQuarantine => "quarantine"
  }

  function TextOf(id: Option<Uuid>): Option<string> {
    if id.Some? then Some(id.value.text) else None
  }

  // ---------- rows ----------

  /** What the kernel hands to _log_audit. */
  datatype Entry = Entry(
    request: Request, requestId: Uuid, score: real, level: RiskLevel, policy: Decision, final: Decision,
    result: Option<Json>, error: Option<string>, sandboxId: Option<string>, durationMs: int,
    approvalId: Option<Uuid>, approverId: Option<string>, replayedFrom: Option<Uuid>)

  /** A row of the audit_records table. The verifier never looks at approverId, executionResult,
      startTime (beyond the order of the rows) and durationMs. */
  datatype Row = Row(
    requestId: Uuid, agentId: string, tool: string, params: Params, riskScore: real,
    riskLevel: DbRiskLevel, policyDecision: DbDecision, finalDecision: DbDecision,
    approverId: Option<string>, approvalId: Option<Uuid>, replayedFrom: Option<Uuid>, auth: Auth,
    sandboxId: Option<string>, executionResult: Option<Json>, error: Option<string>,
    startTime: int, durationMs: int, chainPrev: Option<string>, chainHash: Option<string>)

  /** The writer's payload, built from the request objects. */
  function EntryPayload(e: Entry, prev: Option<string>): Payload {
    Payload(prev, e.requestId.text, e.request.agent.id, e.request.tool, e.request.params,
            e.score, LevelValue(e.level), DecisionValue(e.policy), DecisionValue(e.final),
            TextOf(e.approvalId), TextOf(e.replayedFrom), e.sandboxId, e.error, e.request.auth)
  }

  /** The verifier's payload, built from the persisted row. */
  function RowPayload(r: Row, prev: Option<string>): Payload {
    Payload(prev, r.requestId.text, r.agentId, r.tool, r.params,
            r.riskScore, DbLevelValue(r.riskLevel), DbDecisionValue(r.policyDecision),
            DbDecisionValue(r.finalDecision), TextOf(r.approvalId), TextOf(r.replayedFrom),
            r.sandboxId, r.error, r.auth)
  }

  /** The row _log_audit adds at time now after a row whose hash is prev. */
  function Written(H: Hash, e: Entry, now: int, prev: Option<string>): Row {
    Row(e.requestId, e.request.agent.id, e.request.tool, e.request.params, e.score,
        DbLevel(LevelValue(e.level)).value, DbDecisionOf(DecisionValue(e.policy)).value,
        DbDecisionOf(DecisionValue(e.final)).value, e.approverId, e.approvalId, e.replayedFrom,
        e.request.auth, e.sandboxId, e.result, e.error, now, e.durationMs,
        prev, Some(H(EntryPayload(e, prev))))
  }

  /** Writer and verifier hash the same payload although they read it from different objects. */
  lemma WriterAndVerifierAgree(H: Hash, e: Entry, now: int, prev: Option<string>)
    ensures RowPayload(Written(H, e, now, prev), prev) == EntryPayload(e, prev)
  {
    match e.level { case Low => case Medium => case High => case Critical => }
    assert DbLevelValue(DbLevel(LevelValue(e.level)).value) == LevelValue(e.level);
    DecisionRoundTrip(e.policy);
    DecisionRoundTrip(e.final);
  }

  lemma DecisionRoundTrip(d: Decision)
    ensures DbDecisionOf(DecisionValue(d)).Some?
    ensures DbDecisionValue(DbDecisionOf(DecisionValue(d)).value) == DecisionValue(d)
  {
    match d { case Allow => case Deny => case ApprovalRequired => case Sandbox => case Quarantine => }
  }

  // ---------- the chain ----------

  /** The hash that row i has to link to; the root links to nothing. */
  function PrevHash(rows: seq<Row>, i: nat): Option<string>
    requires i <= |rows|
  {
    if i == 0 then None else rows[i - 1].chainHash
  }

  predicate LinkOk(H: Hash, rows: seq<Row>, i: nat)
    requires i < |rows|
  {
    && rows[i].chainPrev == PrevHash(rows, i)
    && rows[i].chainHash == Some(H(RowPayload(rows[i], PrevHash(rows, i))))
  }

  ghost predicate Intact(H: Hash, rows: seq<Row>) {
    forall i | 0 <= i < |rows| :: LinkOk(H, rows, i)
  }

  /** Row i is the first one that does not check. */
  ghost predicate BreaksAt(H: Hash, rows: seq<Row>, i: nat) {
    && i < |rows|
    && !LinkOk(H, rows, i)
    && forall j | 0 <= j < i :: LinkOk(H, rows, j)
  }

  datatype Verdict = Verdict(ok: bool, checked: nat, error: Option<string>, requestId: Option<string>)

  const PREV_MISMATCH := "chain_prev_hash mismatch"
  const HASH_MISMATCH := "chain_hash mismatch"

  /** The only verdict verify may return on rows. */
  ghost predicate IsVerdict(H: Hash, rows: seq<Row>, v: Verdict) {
    if v.ok then
      Intact(H, rows) && v.checked == |rows| && v.error == None && v.requestId == None
    else
      && BreaksAt(H, rows, v.checked)
      && v.requestId == Some(rows[v.checked].requestId.text)
      && v.error == Some(if rows[v.checked].chainPrev != PrevHash(rows, v.checked) then PREV_MISMATCH
                         else HASH_MISMATCH)
  }

  /** The verifier is an exact decision procedure: its verdict is determined by the rows. */
  lemma VerdictIsUnique(H: Hash, rows: seq<Row>, v: Verdict, w: Verdict)
    requires IsVerdict(H, rows, v) && IsVerdict(H, rows, w)
    ensures v == w
  {
  }

  // ---------- binding: the last hash determines the log ----------

  /** Everything of a row that the chain protects. */
  function Covered(r: Row): (Payload, Option<string>) {
    (RowPayload(r, r.chainPrev), r.chainHash)
  }

  ghost predicate SameCovered(a: seq<Row>, b: seq<Row>) {
    && |a| == |b|
    && forall i | 0 <= i < |a| :: Covered(a[i]) == Covered(b[i])
  }

  /** Walks two intact logs with the same final hash backwards. It returns the first payloads that
      differ, which then collide, or nothing, and then the logs have the same length and agree on
      every protected field. */
  function FindCollision(H: Hash, a: seq<Row>, b: seq<Row>): (r: Option<(Payload, Payload)>)
    requires Intact(H, a) && Intact(H, b)
    requires PrevHash(a, |a|) == PrevHash(b, |b|)
    ensures r.Some? ==> Collision(H, r.value)
    ensures r.None? ==> SameCovered(a, b)
    decreases |a|
  {
    RootIsNone(H, a); RootIsNone(H, b);
    if |a| == 0 || |b| == 0 then None
    else
      var pa := RowPayload(a[|a| - 1], PrevHash(a, |a| - 1));
      var pb := RowPayload(b[|b| - 1], PrevHash(b, |b| - 1));
      assert LinkOk(H, a, |a| - 1) && LinkOk(H, b, |b| - 1);
      if pa != pb then Some((pa, pb))
      else
        BackStep(H, a, b);
        FindCollision(H, a[..|a| - 1], b[..|b| - 1])
  }

  /** One step of the backward walk: equal last payloads carry the question to the rows before. */
  lemma BackStep(H: Hash, a: seq<Row>, b: seq<Row>)
    requires Intact(H, a) && Intact(H, b) && a != [] && b != []
    requires PrevHash(a, |a|) == PrevHash(b, |b|)
    requires RowPayload(a[|a| - 1], PrevHash(a, |a| - 1)) == RowPayload(b[|b| - 1], PrevHash(b, |b| - 1))
    ensures Intact(H, a[..|a| - 1]) && Intact(H, b[..|b| - 1])
    ensures PrevHash(a[..|a| - 1], |a| - 1) == PrevHash(b[..|b| - 1], |b| - 1)
    ensures SameCovered(a[..|a| - 1], b[..|b| - 1]) ==> SameCovered(a, b)
  {
    var (m, n) := (|a| - 1, |b| - 1);
    PrefixIntact(H, a, m);
    PrefixIntact(H, b, n);
    assert LinkOk(H, a, m) && LinkOk(H, b, n);
    assert Covered(a[m]) == Covered(b[n]);
    if SameCovered(a[..m], b[..n]) {
      forall i | 0 <= i < |a| ensures Covered(a[i]) == Covered(b[i]) {
        if i < m {
          assert Covered(a[..m][i]) == Covered(b[..n][i]);
        }
      }
    }
  }

  lemma RootIsNone(H: Hash, rows: seq<Row>)
    requires Intact(H, rows)
    ensures PrevHash(rows, |rows|) == None <==> |rows| == 0
  {
    assert |rows| > 0 ==> LinkOk(H, rows, |rows| - 1);
  }

  lemma PrefixIntact(H: Hash, rows: seq<Row>, k: nat)
    requires Intact(H, rows) && k <= |rows|
    ensures Intact(H, rows[..k])
    ensures PrevHash(rows[..k], k) == PrevHash(rows, k)
  {
    forall i | 0 <= i < k ensures LinkOk(H, rows[..k], i) {
      assert LinkOk(H, rows, i);
    }
  }

  /** Two different positions of an intact log never carry the same hash, unless a collision is found. */
  lemma HashesDistinct(H: Hash, rows: seq<Row>, i: nat, j: nat)
    requires Intact(H, rows) && i < j <= |rows|
    requires PrevHash(rows, i) == PrevHash(rows, j)
    ensures Intact(H, rows[..i]) && Intact(H, rows[..j])
    ensures PrevHash(rows[..i], i) == PrevHash(rows[..j], j)
    ensures FindCollision(H, rows[..i], rows[..j]).Some?
  {
    PrefixIntact(H, rows, i);
    PrefixIntact(H, rows, j);
    assert |rows[..i]| != |rows[..j]|;
  }

  // ---------- appending ----------

  function InsertAt(rows: seq<Row>, p: nat, r: Row): seq<Row>
    requires p <= |rows|
  {
    rows[..p] + [r] + rows[p..]
  }

  /** The row the writer adds to a log: it links to the row that is last when it looks. */
  function Next(H: Hash, rows: seq<Row>, e: Entry, now: int): Row {
    Written(H, e, now, PrevHash(rows, |rows|))
  }

  lemma ExtendIntact(H: Hash, rows: seq<Row>, r: Row)
    requires Intact(H, rows) && r.chainPrev == PrevHash(rows, |rows|)
    requires r.chainHash == Some(H(RowPayload(r, r.chainPrev)))
    ensures Intact(H, rows + [r])
  {
    forall i | 0 <= i < |rows| ensures LinkOk(H, rows + [r], i) {
      assert LinkOk(H, rows, i);
    }
  }

  lemma AppendKeepsIntact(H: Hash, rows: seq<Row>, e: Entry, now: int)
    requires Intact(H, rows)
    ensures Intact(H, rows + [Next(H, rows, e, now)])
  {
    WriterAndVerifierAgree(H, e, now, PrevHash(rows, |rows|));
    ExtendIntact(H, rows, Next(H, rows, e, now));
  }

  /** Inserting a row that links to the last hash anywhere but at the end breaks the chain right there. */
  lemma InsertBreaks(H: Hash, rows: seq<Row>, r: Row, p: nat)
    requires Intact(H, rows) && p < |rows|
    requires r.chainPrev == PrevHash(rows, |rows|)
    ensures Intact(H, rows[..p]) && Intact(H, rows[..|rows|])
    ensures BreaksAt(H, InsertAt(rows, p, r), p)
            || (PrevHash(rows[..p], p) == PrevHash(rows[..|rows|], |rows|)
                && FindCollision(H, rows[..p], rows[..|rows|]).Some?)
  {
    var out := InsertAt(rows, p, r);
    PrefixIntact(H, rows, p);
    PrefixIntact(H, rows, |rows|);
    forall j | 0 <= j < p ensures LinkOk(H, out, j) {
      assert LinkOk(H, rows, j);
    }
    if PrevHash(rows, p) == PrevHash(rows, |rows|) {
      HashesDistinct(H, rows, p, |rows|);
    } else {
      assert PrevHash(out, p) == PrevHash(rows, p);
    }
  }

  /** Where the order by start_time puts the new row decides, and nothing else: the log still verifies
      if and only if the row comes last. A clock that steps back, or a tie resolved the other way,
      breaks the chain exactly at the new row. */
  lemma AppendVerifiesIffLast(H: Hash, rows: seq<Row>, e: Entry, now: int, p: nat)
    requires Intact(H, rows) && p <= |rows|
    ensures Intact(H, rows[..p]) && Intact(H, rows[..|rows|])
    ensures (Intact(H, InsertAt(rows, p, Next(H, rows, e, now))) <==> p == |rows|)
            || (p < |rows| && PrevHash(rows[..p], p) == PrevHash(rows[..|rows|], |rows|)
                && FindCollision(H, rows[..p], rows[..|rows|]).Some?)
    ensures p < |rows| && !BreaksAt(H, InsertAt(rows, p, Next(H, rows, e, now)), p) ==>
              PrevHash(rows[..p], p) == PrevHash(rows[..|rows|], |rows|)
              && FindCollision(H, rows[..p], rows[..|rows|]).Some?
  {
    PrefixIntact(H, rows, p);
    PrefixIntact(H, rows, |rows|);
    var w := Next(H, rows, e, now);
    if p == |rows| {
      AppendKeepsIntact(H, rows, e, now);
      assert InsertAt(rows, p, w) == rows + [w];
    } else {
      InsertBreaks(H, rows, w, p);
    }
  }

  /** Two writers that both read the log before either of them commits: the second row to be stored
      breaks the chain at its own position. */
  lemma RacingWritersBreak(H: Hash, rows: seq<Row>, e1: Entry, now1: int, e2: Entry, now2: int)
    requires Intact(H, rows)
    ensures var first := rows + [Next(H, rows, e1, now1)];
            && Intact(H, rows) && Intact(H, first)
            && (BreaksAt(H, first + [Next(H, rows, e2, now2)], |rows| + 1)
                || (PrevHash(rows, |rows|) == PrevHash(first, |first|) && FindCollision(H, rows, first).Some?))
  {
    var first := rows + [Next(H, rows, e1, now1)];
    var both := first + [Next(H, rows, e2, now2)];
    AppendKeepsIntact(H, rows, e1, now1);
    forall j | 0 <= j < |first| ensures LinkOk(H, both, j) {
      assert LinkOk(H, first, j);
    }
    assert PrevHash(both, |rows| + 1) == PrevHash(first, |first|);
    if PrevHash(rows, |rows|) == PrevHash(first, |first|) {
      assert |rows| != |first|;
    }
  }

  /** One call of _log_audit: the entry, the clock reading, and whether the commit succeeds. */
  datatype LogCall = LogCall(entry: Entry, now: int, commits: bool)

  ghost predicate InOrder(rows: seq<Row>) {
    forall i, j | 0 <= i < j < |rows| :: rows[i].startTime <= rows[j].startTime
  }

  /** A position for a row stamped now that keeps the order by start_time. */
  ghost predicate Fits(rows: seq<Row>, p: int, now: int) {
    && 0 <= p <= |rows|
    && (forall i | 0 <= i < p :: rows[i].startTime <= now)
    && (forall i | p <= i < |rows| :: now <= rows[i].startTime)
  }

  /** How many rows are stamped before now, or up to now if through. */
  function StampedBy(rows: seq<Row>, now: int, through: bool): (n: nat)
    ensures n <= |rows|
  {
    if rows == [] then 0
    else
      var last := rows[|rows| - 1].startTime;
      StampedBy(rows[..|rows| - 1], now, through) + if last < now || (through && last == now) then 1 else 0
  }

  /** Where a row stamped now lands: after the earlier rows and after tie of those with the same stamp. */
  function Spot(rows: seq<Row>, now: int, tie: nat): (p: nat)
    ensures p <= |rows|
  {
    Min(StampedBy(rows, now, false) + tie, StampedBy(rows, now, true))
  }

  /** _log_audit with a commit that succeeds. */
  function Logged(H: Hash, rows: seq<Row>, e: Entry, now: int, tie: nat): seq<Row> {
    InsertAt(rows, Spot(rows, now, tie), Next(H, rows, e, now))
  }

  lemma {:induction false} StampsSplit(rows: seq<Row>, now: int, through: bool)
    requires InOrder(rows)
    ensures var n := StampedBy(rows, now, through);
            forall i | 0 <= i < |rows| :: i < n <==> rows[i].startTime < now || (through && rows[i].startTime == now)
  {
    if rows == [] {
    } else {
      StampsSplit(rows[..|rows| - 1], now, through);
    }
  }

  /** In an ordered table the spots are exactly the positions that keep the order. */
  lemma SpotsAreFits(rows: seq<Row>, now: int, p: nat)
    requires InOrder(rows)
    ensures Fits(rows, p, now) <==> p <= |rows| && exists tie: nat :: p == Spot(rows, now, tie)
  {
    StampsSplit(rows, now, false);
    StampsSplit(rows, now, true);
    var (lo, hi) := (StampedBy(rows, now, false), StampedBy(rows, now, true));
    assert lo > 0 ==> rows[lo - 1].startTime < now;
    assert hi < |rows| ==> rows[hi].startTime > now;
    if Fits(rows, p, now) {
      assert p == Spot(rows, now, p - lo);
    }
  }

  lemma InsertKeepsOrder(rows: seq<Row>, p: nat, r: Row)
    requires InOrder(rows) && p <= |rows| && Fits(rows, p, r.startTime)
    ensures InOrder(InsertAt(rows, p, r))
  {
  }

  /** Every row of the table is still there, and the new one. */
  lemma InsertKeepsRows(rows: seq<Row>, p: nat, r: Row, x: Row)
    requires p <= |rows|
    ensures x in InsertAt(rows, p, r) <==> x in rows || x == r
  {
    var out := InsertAt(rows, p, r);
    assert out[p] == r;
    if x in rows {
      var i :| 0 <= i < |rows| && rows[i] == x;
      assert out[if i < p then i else i + 1] == x;
    }
  }

  /** What one call may do to the table. */
  ghost predicate LogStep(H: Hash, rows: seq<Row>, c: LogCall, out: seq<Row>) {
    if c.commits then
      exists p: nat :: Fits(rows, p, c.now) && out == InsertAt(rows, p, Next(H, rows, c.entry, c.now))
    else out == rows
  }

  function CommittedCount(calls: seq<LogCall>): nat {
    if calls == [] then 0
    else CommittedCount(calls[..|calls| - 1]) + if calls[|calls| - 1].commits then 1 else 0
  }

  /** The stamps of the calls increase and are later than everything in the table. */
  ghost predicate Increasing(rows: seq<Row>, calls: seq<LogCall>) {
    && (forall i, k | 0 <= i < |rows| && 0 <= k < |calls| :: rows[i].startTime < calls[k].now)
    && (forall k, l | 0 <= k < l < |calls| :: calls[k].now < calls[l].now)
  }

  lemma LogStepKeepsIntact(H: Hash, rows: seq<Row>, c: LogCall, out: seq<Row>)
    requires Intact(H, rows) && LogStep(H, rows, c, out)
    requires forall i | 0 <= i < |rows| :: rows[i].startTime < c.now
    ensures out == if c.commits then rows + [Next(H, rows, c.entry, c.now)] else rows
    ensures Intact(H, out)
  {
    if c.commits {
      var p: nat :| Fits(rows, p, c.now) && out == InsertAt(rows, p, Next(H, rows, c.entry, c.now));
      LastFits(rows, p, c.now);
      AppendKeepsIntact(H, rows, c.entry, c.now);
    }
  }

  lemma LastFits(rows: seq<Row>, p: nat, now: int)
    requires Fits(rows, p, now) && forall i | 0 <= i < |rows| :: rows[i].startTime < now
    ensures p == |rows|
  {
    if rows != [] {
      assert rows[|rows| - 1].startTime < now;
    }
  }

  /** Every run of the logger with increasing stamps, failed and rolled-back commits included, leaves
      an intact log that extends the one it started from by exactly the committed calls. */
  lemma {:induction false} RunsVerify(H: Hash, states: seq<seq<Row>>, calls: seq<LogCall>)
    requires |states| == |calls| + 1
    requires forall k | 0 <= k < |calls| :: LogStep(H, states[k], calls[k], states[k + 1])
    requires Intact(H, states[0]) && Increasing(states[0], calls)
    ensures Intact(H, states[|calls|])
    ensures states[0] <= states[|calls|]
    ensures |states[|calls|]| == |states[0]| + CommittedCount(calls)
    ensures forall i | 0 <= i < |states[|calls|]| ::
              i < |states[0]| || exists k :: 0 <= k < |calls| && states[|calls|][i].startTime == calls[k].now
    decreases |calls|
  {
    if calls == [] {
    } else {
      var n := |calls| - 1;
      RunsVerify(H, states[..n + 1], calls[..n]);
      var rows := states[n];
      forall i | 0 <= i < |rows| ensures rows[i].startTime < calls[n].now {
        if i >= |states[0]| {
          var k :| 0 <= k < n && rows[i].startTime == calls[..n][k].now;
        } else {
          assert rows[i] == states[0][i];
        }
      }
      LogStepKeepsIntact(H, rows, calls[n], states[n + 1]);
    }
  }

  // ---------- a broken chain never heals ----------

  /** A row with the latest hash was put somewhere, or nothing happened. */
  ghost predicate Grows(H: Hash, before: seq<Row>, after: seq<Row>) {
    || after == before
    || exists e: Entry, now: int, p: nat :: p <= |before| && after == InsertAt(before, p, Next(H, before, e, now))
  }

  /** The row was put last. */
  ghost predicate Appends(H: Hash, before: seq<Row>, after: seq<Row>) {
    after == before || exists e: Entry, now: int :: after == before + [Next(H, before, e, now)]
  }

  ghost predicate GrowsAt(H: Hash, logs: seq<seq<Row>>, j: nat)
    requires j + 1 < |logs|
  {
    Grows(H, logs[j], logs[j + 1])
  }

  ghost predicate AppendsAt(H: Hash, logs: seq<seq<Row>>, j: nat)
    requires j + 1 < |logs|
  {
    Appends(H, logs[j], logs[j + 1])
  }

  ghost predicate GrowsTo(H: Hash, logs: seq<seq<Row>>, k: nat)
    requires k < |logs|
  {
    forall j | 0 <= j < k :: GrowsAt(H, logs, j)
  }

  ghost predicate AppendsTo(H: Hash, logs: seq<seq<Row>>, k: nat)
    requires k < |logs|
  {
    forall j | 0 <= j < k :: AppendsAt(H, logs, j)
  }

  /** Row a links to row b, which does not come before it. */
  ghost predicate Tangled(rows: seq<Row>, a: nat, b: nat) {
    a <= b < |rows| && rows[a].chainPrev == rows[b].chainHash
  }

  /** Positions i < j of an intact log with the same hash, and therefore a collision. */
  ghost predicate CollidesAt(H: Hash, rows: seq<Row>, i: nat, j: nat) {
    && i < j <= |rows| && PrevHash(rows, i) == PrevHash(rows, j)
    && Intact(H, rows[..i]) && Intact(H, rows[..j]) && PrevHash(rows[..i], i) == PrevHash(rows[..j], j)
    && FindCollision(H, rows[..i], rows[..j]).Some?
  }

  lemma TangleCollides(H: Hash, rows: seq<Row>, a: nat, b: nat)
    requires Intact(H, rows) && Tangled(rows, a, b)
    ensures CollidesAt(H, rows, a, b + 1)
  {
    assert LinkOk(H, rows, a);
    HashesDistinct(H, rows, a, b + 1);
  }

  lemma TangleShifts(rows: seq<Row>, p: nat, r: Row, a: nat, b: nat)
    requires p <= |rows| && Tangled(rows, a, b)
    ensures Tangled(InsertAt(rows, p, r), if a < p then a else a + 1, if b < p then b else b + 1)
  {
    var out := InsertAt(rows, p, r);
    assert out[if a < p then a else a + 1] == rows[a] && out[if b < p then b else b + 1] == rows[b];
  }

  ghost predicate Knotted(rows: seq<Row>) {
    exists a: nat, b: nat :: Tangled(rows, a, b)
  }

  lemma KnotStays(H: Hash, before: seq<Row>, after: seq<Row>)
    requires Grows(H, before, after) && Knotted(before)
    ensures Knotted(after)
  {
    if after != before {
      var a: nat, b: nat :| Tangled(before, a, b);
      var e: Entry, now: int, p: nat :| p <= |before| && after == InsertAt(before, p, Next(H, before, e, now));
      TangleShifts(before, p, Next(H, before, e, now), a, b);
    }
  }

  lemma InsertTangles(rows: seq<Row>, p: nat, r: Row)
    requires p < |rows| && r.chainPrev == PrevHash(rows, |rows|)
    ensures Tangled(InsertAt(rows, p, r), p, |rows|)
  {
    var out := InsertAt(rows, p, r);
    assert out[p] == r && out[|rows|] == rows[|rows| - 1];
  }

  lemma InsertLast(rows: seq<Row>, r: Row)
    ensures InsertAt(rows, |rows|, r) == rows + [r]
  {
  }

  lemma Misplaced(H: Hash, before: seq<Row>, after: seq<Row>) returns (p: nat, r: Row)
    requires Grows(H, before, after) && !Appends(H, before, after)
    ensures p < |before| && r.chainPrev == PrevHash(before, |before|) && after == InsertAt(before, p, r)
  {
    var e: Entry, now: int;
    e, now, p :| p <= |before| && after == InsertAt(before, p, Next(H, before, e, now));
    r := Next(H, before, e, now);
    InsertLast(before, r);
  }

  lemma MisplacedKnots(H: Hash, before: seq<Row>, after: seq<Row>)
    requires Grows(H, before, after) && !Appends(H, before, after)
    ensures Knotted(after)
  {
    var p, r := Misplaced(H, before, after);
    InsertTangles(before, p, r);
  }

  lemma {:induction false} KnotLasts(H: Hash, logs: seq<seq<Row>>, j: nat, k: nat)
    requires j <= k < |logs| && GrowsTo(H, logs, k) && Knotted(logs[j])
    ensures Knotted(logs[k])
    decreases k - j
  {
    if j == k {
    } else {
      assert GrowsAt(H, logs, j);
      KnotStays(H, logs[j], logs[j + 1]);
      KnotLasts(H, logs, j + 1, k);
    }
  }

  lemma {:induction false} AppendsStayIntact(H: Hash, logs: seq<seq<Row>>, k: nat)
    requires k < |logs| && Intact(H, logs[0]) && AppendsTo(H, logs, k)
    ensures Intact(H, logs[k])
  {
    if k == 0 {
    } else {
      AppendsStayIntact(H, logs, k - 1);
      if logs[k] != logs[k - 1] {
        assert AppendsAt(H, logs, k - 1);
        var e: Entry, now: int :| logs[k] == logs[k - 1] + [Next(H, logs[k - 1], e, now)];
        AppendKeepsIntact(H, logs[k - 1], e, now);
      }
    }
  }

  /** For any clock, a log that grows from an intact one verifies if and only if every row was put last when
      it was committed, up to a collision: whatever is added later, a broken chain never heals. */
  lemma VerifiesIffAppended(H: Hash, logs: seq<seq<Row>>, k: nat) returns (a: nat, b: nat)
    requires k < |logs| && Intact(H, logs[0]) && GrowsTo(H, logs, k)
    ensures AppendsTo(H, logs, k) ==> Intact(H, logs[k])
    ensures Intact(H, logs[k]) && !AppendsTo(H, logs, k) ==> CollidesAt(H, logs[k], a, b)
  {
    a, b := 0, 0;
    if AppendsTo(H, logs, k) {
      AppendsStayIntact(H, logs, k);
    } else {
      var j: nat :| j < k && !AppendsAt(H, logs, j);
      assert GrowsAt(H, logs, j);
      MisplacedKnots(H, logs[j], logs[j + 1]);
      KnotLasts(H, logs, j + 1, k);
      a, b :| Tangled(logs[k], a, b);
      if Intact(H, logs[k]) {
        TangleCollides(H, logs[k], a, b);
      }
      b := b + 1;
    }
  }

  // ---------- tampering ----------

  /** Replacing row i by one that keeps its two chain columns. The change is noticed at i exactly when
      it touches a protected field, up to an explicit collision; approverId, executionResult and the
      times are free to change. */
  lemma EditIsNoticedIffCovered(H: Hash, rows: seq<Row>, i: nat, r: Row)
    requires Intact(H, rows) && i < |rows|
    requires r.chainPrev == rows[i].chainPrev && r.chainHash == rows[i].chainHash
    ensures Covered(r) == Covered(rows[i]) ==> Intact(H, rows[i := r])
    ensures Covered(r) != Covered(rows[i]) ==>
              || BreaksAt(H, rows[i := r], i)
              || Collision(H, (RowPayload(rows[i], rows[i].chainPrev), RowPayload(r, r.chainPrev)))
  {
    var out := rows[i := r];
    assert LinkOk(H, rows, i);
    forall j | 0 <= j < |rows| && j != i ensures LinkOk(H, out, j) {
      assert LinkOk(H, rows, j);
    }
    assert Covered(r) == Covered(rows[i]) ==> LinkOk(H, out, i);
  }

  /** Editing a protected field of row i and recomputing its hash moves the failure to the next row;
      on the last row it goes unnoticed by verify. */
  lemma RehashedEditMovesOn(H: Hash, rows: seq<Row>, i: nat, r: Row)
    requires Intact(H, rows) && i < |rows|
    requires r.chainPrev == rows[i].chainPrev && Covered(r).0 != Covered(rows[i]).0
    requires r.chainHash == Some(H(RowPayload(r, r.chainPrev)))
    ensures i + 1 == |rows| ==> Intact(H, rows[i := r])
    ensures i + 1 < |rows| ==>
              || BreaksAt(H, rows[i := r], i + 1)
              || Collision(H, (RowPayload(rows[i], rows[i].chainPrev), RowPayload(r, r.chainPrev)))
  {
    var out := rows[i := r];
    assert LinkOk(H, rows, i);
    forall j | 0 <= j < |rows| && j != i + 1 ensures LinkOk(H, out, j) {
      assert LinkOk(H, rows, j);
    }
    if i + 1 < |rows| {
      assert LinkOk(H, rows, i + 1);
      assert PrevHash(out, i + 1) == r.chainHash;
    }
  }

  /** Deleting a record that is not the last one makes verify fail at its position. */
  lemma DeletionIsNoticed(H: Hash, rows: seq<Row>, i: nat)
    requires Intact(H, rows) && i + 1 < |rows|
    ensures Intact(H, rows[..i]) && Intact(H, rows[..i + 1])
    ensures || BreaksAt(H, rows[..i] + rows[i + 1..], i)
            || (PrevHash(rows[..i], i) == PrevHash(rows[..i + 1], i + 1)
                && FindCollision(H, rows[..i], rows[..i + 1]).Some?)
  {
    var out := rows[..i] + rows[i + 1..];
    PrefixIntact(H, rows, i);
    PrefixIntact(H, rows, i + 1);
    forall j | 0 <= j < i ensures LinkOk(H, out, j) {
      assert LinkOk(H, rows, j);
    }
    assert LinkOk(H, rows, i + 1);
    assert PrevHash(out, i) == PrevHash(rows, i) && out[i] == rows[i + 1];
    if PrevHash(rows, i) == PrevHash(rows, i + 1) {
      HashesDistinct(H, rows, i, i + 1);
    }
  }

  /** The rows at these positions, in this order: rows may be lost, moved and repeated. */
  function Picked(rows: seq<Row>, pick: seq<nat>): seq<Row>
    requires forall j | 0 <= j < |pick| :: pick[j] < |rows|
  {
    seq(|pick|, j requires 0 <= j < |pick| => rows[pick[j]])
  }

  ghost predicate InPlace(pick: seq<nat>) {
    forall j | 0 <= j < |pick| :: pick[j] == j
  }

  lemma {:induction false} IntactPicksLink(H: Hash, rows: seq<Row>, pick: seq<nat>, n: nat) returns (i: nat, j: nat)
    requires Intact(H, rows) && (forall j | 0 <= j < |pick| :: pick[j] < |rows|) && Intact(H, Picked(rows, pick))
    requires n <= |pick| && !InPlace(pick[..n])
    ensures i < j <= |rows| && PrevHash(rows, i) == PrevHash(rows, j)
  {
    var m := n - 1;
    assert pick[..n][..m] == pick[..m];
    if !InPlace(pick[..m]) {
      i, j := IntactPicksLink(H, rows, pick, m);
    } else {
      var p := pick[m];
      assert forall l | 0 <= l < m :: pick[l] == pick[..m][l] == l;
      assert p != m by {
        assert p == m ==> forall l | 0 <= l < n :: pick[..n][l] == l;
      }
      assert LinkOk(H, Picked(rows, pick), m) && LinkOk(H, rows, p);
      assert m > 0 ==> Picked(rows, pick)[m - 1] == rows[m - 1];
      i, j := if p < m then p else m, if p < m then m else p;
    }
  }

  /** Which losses pass verify, exactly: of an intact log, any rows in any order, with repetitions, verify if
      and only if they are its first rows in place, up to a collision. */
  lemma PicksVerifyIffInPlace(H: Hash, rows: seq<Row>, pick: seq<nat>) returns (i: nat, j: nat)
    requires Intact(H, rows) && forall j | 0 <= j < |pick| :: pick[j] < |rows|
    ensures InPlace(pick) ==> Picked(rows, pick) <= rows && Intact(H, Picked(rows, pick))
    ensures Intact(H, Picked(rows, pick)) && !InPlace(pick) ==> CollidesAt(H, rows, i, j)
  {
    i, j := 0, 0;
    if InPlace(pick) {
      assert |pick| > 0 ==> pick[|pick| - 1] == |pick| - 1;
      assert Picked(rows, pick) == rows[..|pick|];
      PrefixIntact(H, rows, |pick|);
    } else if Intact(H, Picked(rows, pick)) {
      assert pick[..|pick|] == pick;
      i, j := IntactPicksLink(H, rows, pick, |pick|);
      HashesDistinct(H, rows, i, j);
    }
  }

  /** A log whose rows were all forged and relinked from the root. */
  function Relink(H: Hash, rows: seq<Row>): (out: seq<Row>)
    ensures |out| == |rows|
    ensures Intact(H, out)
    ensures forall i | 0 <= i < |rows| :: RowPayload(out[i], None) == RowPayload(rows[i], None)
  {
    if rows == [] then []
    else
      var front := Relink(H, rows[..|rows| - 1]);
      var prev := PrevHash(front, |front|);
      var last := rows[|rows| - 1].(chainPrev := prev);
      var linked := last.(chainHash := Some(H(RowPayload(last, prev))));
      ExtendIntact(H, front, linked);
      front + [linked]
  }

  // ---------- checkpoints ----------

  datatype Checkpoint = Checkpoint(records: nat, lastRequestId: Option<string>, chainHash: Option<string>)

  function CheckpointOf(rows: seq<Row>): Checkpoint {
    if rows == [] then Checkpoint(0, None, None)
    else Checkpoint(|rows|, Some(rows[|rows| - 1].requestId.text), rows[|rows| - 1].chainHash)
  }

  /** verify alone accepts a log that lost its tail: every prefix of an intact log is intact. What the
      truncation cannot keep is the number of records. */
  lemma TruncationPassesVerify(H: Hash, rows: seq<Row>, k: nat)
    requires Intact(H, rows) && k < |rows|
    ensures Intact(H, rows[..k])
    ensures CheckpointOf(rows[..k]).records != CheckpointOf(rows).records
  {
    PrefixIntact(H, rows, k);
  }

  /** A checkpoint pins a prefix: an intact log that has the checkpoint's hash at the checkpoint's
      position agrees with the checkpointed log up to there, or a collision is found. */
  lemma CheckpointPinsPrefix(H: Hash, pinned: seq<Row>, later: seq<Row>)
    requires Intact(H, pinned) && Intact(H, later)
    requires CheckpointOf(pinned).records <= |later|
    requires PrevHash(later, CheckpointOf(pinned).records) == CheckpointOf(pinned).chainHash
    ensures Intact(H, later[..|pinned|])
    ensures PrevHash(later[..|pinned|], |later[..|pinned|]|) == PrevHash(pinned, |pinned|)
    ensures SameCovered(pinned, later[..|pinned|]) || FindCollision(H, pinned, later[..|pinned|]).Some?
  {
    PrefixIntact(H, later, |pinned|);
    assert FindCollision(H, pinned, later[..|pinned|]).None? ==> SameCovered(pinned, later[..|pinned|]);
  }

  /** Relinking a whole log satisfies verify, but an edited record is still caught by a checkpoint
      taken before: the final hash differs, up to a collision. */
  lemma RelinkedForgeryMissesCheckpoint(H: Hash, rows: seq<Row>, i: nat, forged: Row)
    requires Intact(H, rows) && i < |rows|
    requires RowPayload(forged, None) != RowPayload(rows[i], None)
    ensures var out := Relink(H, rows[i := forged]);
            && Intact(H, out)
            && (CheckpointOf(out).chainHash != CheckpointOf(rows).chainHash
                || (PrevHash(rows, |rows|) == PrevHash(out, |out|) && FindCollision(H, rows, out).Some?))
  {
    var out := Relink(H, rows[i := forged]);
    if CheckpointOf(out).chainHash == CheckpointOf(rows).chainHash {
      assert LinkOk(H, rows, i) && LinkOk(H, out, i);
      PayloadFromRoot(rows[i], rows[i].chainPrev);
      PayloadFromRoot(out[i], out[i].chainPrev);
      assert Covered(rows[i]) != Covered(out[i]);
    }
  }

  lemma PayloadFromRoot(r: Row, prev: Option<string>)
    ensures RowPayload(r, None) == RowPayload(r, prev).(prevHash := None)
  {
  }

  // ---------- the table, its writer, its verifier ----------

  class AuditLog {
    const H: Hash
    /** The audit_records table in the order of start_time. */
    var rows: seq<Row>

    constructor (H: Hash)
      ensures this.H == H && rows == []
    {
      this.H := H;
      rows := [];
    }

    /** Adds an entry where its stamp puts it; a commit that fails is rolled back. Rows with equal stamps
        have no fixed order: tie is how many of them the table shows before the new one. */
    method LogAudit(e: Entry, now: int, tie: nat, commits: bool)
      requires InOrder(rows)
      modifies this`rows
      ensures InOrder(rows)
      ensures rows == if commits then Logged(H, old(rows), e, now, tie) else old(rows)
      ensures LogStep(H, old(rows), LogCall(e, now, commits), rows)
    {
      var prev := if |rows| > 0 then rows[|rows| - 1].chainHash else None;
      var row := Written(H, e, now, prev);
      if commits {
        var p := Place(now, tie);
        SpotsAreFits(rows, now, p);
        rows := InsertAt(rows, p, row);
      }
    }

    /** Where the ordering by start_time shows a new row. */
    method Place(now: int, tie: nat) returns (p: nat)
      requires InOrder(rows)
      ensures p == Spot(rows, now, tie)
    {
      StampsSplit(rows, now, false);
      StampsSplit(rows, now, true);
      p := 0;
      while p < |rows| && rows[p].startTime < now
        invariant p <= |rows|
        invariant forall i | 0 <= i < p :: rows[i].startTime < now
      {
        p := p + 1;
      }
      assert p > 0 ==> rows[p - 1].startTime < now;
      assert p < |rows| ==> !(p < StampedBy(rows, now, false));
      assert p == StampedBy(rows, now, false) <= StampedBy(rows, now, true);
      var skipped := 0;
      while skipped < tie && p < |rows| && rows[p].startTime == now
        invariant skipped <= tie && p <= |rows|
        invariant p == StampedBy(rows, now, false) + skipped <= StampedBy(rows, now, true)
      {
        p, skipped := p + 1, skipped + 1;
      }
    }

    /** Walks the chain from the root and stops at the first row that does not check. */
    method Verify() returns (v: Verdict)
      ensures IsVerdict(H, rows, v)
    {
      var previous: Option<string> := None;
      var checked: nat := 0;
      while checked < |rows|
        invariant checked <= |rows|
        invariant previous == PrevHash(rows, checked)
        invariant forall j | 0 <= j < checked :: LinkOk(H, rows, j)
      {
        var row := rows[checked];
        var expected := H(RowPayload(row, previous));
        if row.chainPrev != previous {
          return Verdict(false, checked, Some(PREV_MISMATCH), Some(row.requestId.text));
        }
        if row.chainHash != Some(expected) {
          return Verdict(false, checked, Some(HASH_MISMATCH), Some(row.requestId.text));
        }
        previous := row.chainHash;
        checked := checked + 1;
      }
      return Verdict(true, checked, None, None);
    }

    /** The content of a checkpoint file. */
    method CreateCheckpoint() returns (c: Checkpoint)
      ensures c == CheckpointOf(rows)
    {
      if rows == [] {
        c := Checkpoint(0, None, None);
      } else {
        var last := rows[|rows| - 1];
        c := Checkpoint(|rows|, Some(last.requestId.text), last.chainHash);
      }
    }
  }
}
