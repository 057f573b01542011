/** Values shared by every component: JSON values, identities, requests, decisions and risk levels. */
module Base {

  datatype Option<+T> = None | Some(value: T)

  /** A JSON value. Numbers are kept as they print. */
  datatype Json =
    | Null
    | Bool(b: bool)
    | Num(literal: string)
    | Str(text: string)
    | Arr(items: seq<Json>)
    | Obj(fields: map<string, Json>)

  /** The parameters of a tool call: a dictionary, so two orders of the same entries are one value. */
  type Params = map<string, Json>

  /** A UUID, represented by its canonical text; str() of it is that text. */
  datatype Uuid = Uuid(text: string)

  datatype Decision = Allow | Deny | ApprovalRequired | Sandbox | Quarantine

  datatype RiskLevel = Low | Medium | High | Critical

  /** The trust level is validated to lie between 0 and 1 when a request is built. */
  type Trust = t: real | 0.0 <= t <= 1.0 witness 0.5

  datatype Agent = Agent(id: string, tenant: Option<string>, scope: Option<string>, trust: Trust)

  /** The entries of context['auth'] that reach the audit log. */
  datatype Auth = Auth(kind: Option<string>, subject: Option<string>, tokenId: Option<string>, keyId: Option<string>)

  const NO_AUTH := Auth(None, None, None, None)

  /** An action request; the free-form context is represented by its printed text and its auth entry. */
  datatype Request = Request(agent: Agent, tool: string, params: Params, context: string, auth: Auth)

  /** The tools that have an adapter registered with the broker. */
  const BROKER_TOOLS: set<string> :=
    {"read_file", "list_directory", "write_file", "delete_file", "http_request", "exec"}

  /** The tools whose execution is always routed to a human. */
  const GATED_TOOLS: set<string> := {"write_file", "delete_file", "http_request", "exec"}

  const READ_TOOLS: set<string> := {"read_file", "list_directory"}

  /** Does needle occur in hay? (Python's `needle in hay`) */
  predicate Contains(hay: string, needle: string)
    decreases |hay|
  {
    needle <= hay || (hay != "" && Contains(hay[1..], needle))
  }

  function LowerChar(c: char): char {
    if 'A' <= c <= 'Z' then (c as int + 32) as char else c
  }

  /** str.lower() on ASCII letters. */
  function Lower(s: string): string {
    seq(|s|, i requires 0 <= i < |s| => LowerChar(s[i]))
  }

  function Min(a: int, b: int): int {
    if a <= b then a else b
  }

  function Max(a: int, b: int): int {
    if a <= b then b else a
  }
}
