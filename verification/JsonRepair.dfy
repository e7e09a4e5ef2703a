/** `ModelManager.generate_json`: call the model, parse and validate, and ask
    for a repair while the budget lasts. */
module JsonRepair {
  import opened Common
  import opened StructuredOutput
  import S = SchemaValidation

  /** The outcome of one `generate` call. */
  datatype Reply = Answer(content: Content) | Failure(code: Option<string>)

  datatype Structured =
    | Success(data: S.Value, content: Content, repairs: nat)
    | CallFailed(code: string, repairs: nat)
    | Rejected(code: string, content: Content, repairs: nat)

  const MAX_REPAIRS := 5

  /** `_structured_repair_attempts`; a configured value that is not a number is None. */
  function RepairLimit(explicit: Option<int>, configured: Option<int>): (r: nat)
    ensures r <= MAX_REPAIRS && (explicit.None? && configured.None? ==> r == 1)
    ensures var asked := if explicit.Some? then explicit else configured;
            asked.Some? ==> forall k: nat | k <= MAX_REPAIRS :: Distance(asked.value, r) <= Distance(asked.value, k)
  {
    match (explicit, configured)
    case (Some(n), _) => Clamp(n)
    case (None, Some(n)) => Clamp(n)
    case (None, None) => 1
  }

  function Distance(a: int, b: int): nat { if a < b then b - a else a - b }

  function Clamp(n: int): nat {
    if n < 0 then 0 else if n > MAX_REPAIRS then MAX_REPAIRS else n
  }

  /** The fixed inputs of one `generate_json` call. */
  datatype Request = Request(
    mode: ParseMode, loads: Loader, schema: Option<S.Schema>,
    explicitRepairs: Option<int>, configuredRepairs: Option<int>, repairAllowed: bool)

  function Limit(q: Request): nat {
    RepairLimit(q.explicitRepairs, q.configuredRepairs)
  }

  function ParseReply(q: Request, content: Content): Parse {
    ParseOf(content, q.mode, q.loads)
  }

  /** The content parses and its data conforms to the schema. */
  ghost predicate Good(q: Request, reply: Reply) {
    && reply.Answer?
    && var p := ParseReply(q, reply.content);
       p.Parsed? && (q.schema.Some? ==> S.Conforms(p.data, q.schema.value))
  }

  function Budget(q: Request): nat {
    if q.repairAllowed then Limit(q) + 1 else 1
  }

  /** Which code a rejected final answer carries. */
  function RejectionCode(q: Request, parsed: bool, repairs: nat): string {
    if parsed then "schema_invalid"
    else if repairs > 0 || q.repairAllowed then "json_repair_failed"
    else "invalid_json"
  }

  ghost predicate Settles(q: Request, reply: Reply) {
    reply.Failure? || Good(q, reply)
  }

  /** Call `calls - 1` is the first to settle, or the last the budget allows. */
  ghost predicate StopsAt(q: Request, replies: nat -> Reply, calls: nat) {
    && 1 <= calls <= Budget(q)
    && (forall i | 0 <= i < calls - 1 :: !Settles(q, replies(i)))
    && (Settles(q, replies(calls - 1)) || calls == Budget(q))
  }

  ghost predicate Reports(q: Request, reply: Reply, repairs: nat, r: Structured) {
    match reply
    case Failure(code) =>
      r == CallFailed(match code
                      case Some(c) => c
                      case None => if repairs == 0 then "model_call_failed" else "json_repair_failed",
                      repairs)
    case Answer(content) =>
      var p := ParseReply(q, content);
      if Good(q, reply) then r == Success(p.data, content, repairs)
      else r == Rejected(RejectionCode(q, p.Parsed?, repairs), content, repairs)
  }

  method GenerateJson(q: Request, replies: nat -> Reply) returns (r: Structured, calls: nat)
    ensures calls <= Limit(q) + 1 <= MAX_REPAIRS + 1
    ensures StopsAt(q, replies, calls)
    ensures Reports(q, replies(calls - 1), calls - 1, r)
  {
    hide ParseOf, S.Conforms, S.ErrorsOf;
    var first := replies(0);
    calls := 1;
    if first.Failure? {
      r := CallFailed(if first.code.Some? then first.code.value else "model_call_failed", 0);
      return;
    }
    var current := first.content;
    var used := 0;
    var attempt := 0;
    r := CallFailed("", 0);
    while attempt < Limit(q) + 1
      invariant 0 <= attempt <= Limit(q) && (attempt > 0 ==> q.repairAllowed)
      invariant used == attempt && calls == attempt + 1
      invariant replies(attempt) == Answer(current)
      invariant forall i | 0 <= i < attempt :: !Settles(q, replies(i))
    {
      var parsed := ParseJsonOutput(current, q.mode, q.loads);
      var schemaInvalid := false;
      if parsed.Parsed? {
        var valid, errors := S.ValidateJsonSchema(parsed.data, q.schema);
        if valid {
          r := Success(parsed.data, current, used);
          return;
        }
        schemaInvalid := true;
      }
      assert !Good(q, replies(attempt));
      if !q.repairAllowed || attempt >= Limit(q) {
        var code := if schemaInvalid then "schema_invalid"
                    else if used > 0 || q.repairAllowed then "json_repair_failed"
                    else "invalid_json";
        r := Rejected(code, current, used);
        return;
      }
      var reply := replies(attempt + 1);
      used := used + 1;
      calls := calls + 1;
      if reply.Failure? {
        r := CallFailed(if reply.code.Some? then reply.code.value else "json_repair_failed", used);
        return;
      }
      current := reply.content;
      attempt := attempt + 1;
    }
    assert false;  // every pass of the loop that may not repair again returns
  }

  /** The stopping call, and so the whole outcome, is determined by the replies. */
  lemma StopIsUnique(q: Request, replies: nat -> Reply, a: nat, b: nat)
    requires StopsAt(q, replies, a) && StopsAt(q, replies, b)
    ensures a == b
  {
    var x, y := replies(a - 1), replies(b - 1);
  }

  /** The outcome is a success exactly when some good answer falls inside the
      budget with no failed call before it. */
  lemma SucceedsIff(q: Request, replies: nat -> Reply, calls: nat, r: Structured)
    requires StopsAt(q, replies, calls) && Reports(q, replies(calls - 1), calls - 1, r)
    ensures r.Success? <==>
      exists k :: 0 <= k < Budget(q) && Good(q, replies(k)) && forall i | 0 <= i < k :: replies(i).Answer?
  {
    if k :| 0 <= k < Budget(q) && Good(q, replies(k)) && forall i | 0 <= i < k :: replies(i).Answer? {
      assert calls - 1 <= k;
      assert calls - 1 < k ==> replies(calls - 1).Answer?;
    }
  }
}
