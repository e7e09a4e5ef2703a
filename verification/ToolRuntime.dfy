/** The execution pipeline: when the runtime calls a tool's handler. */
module ToolRuntime {
  import opened Common
  import opened ToolTables
  import opened ToolPolicy
  import opened ToolRegistry

  datatype Request = Request(tool: string, options: Options)

  datatype Handler = Missing | NotRunnable | Runs(outcome: Ran)

  /** `Raised` also stands for failures while the result is being packed. */
  datatype Ran = Returned | TimedOut | Raised

  /** Stages before the handler that may raise. */
  datatype Stage = Validation | FirstDecision | Preview | SecondDecision | Resolution

  /** What the environment contributes to one call: what the arguments map to and
      whether they validate, the path checks of both decisions, the preview,
      the handler found, and where something raises, if anywhere. */
  datatype World = World(
    mapped: seq<string>, argsValid: bool, paths: seq<PathResult>, pathsAgain: seq<PathResult>,
    previewHash: string, previewFails: bool, handler: Handler, raises: Option<Stage>)

  datatype Result =
    | Disabled | NotFound | Invalid | Refused(code: Code) | PreviewFailed
    | DryRun | DryRunUnsupported | NotImplemented | Called(outcome: Ran) | Internal

  /** The question of the first decision; the second one adds the preview's hash. */
  function Asked(spec: ToolSpec, r: Request, mapped: seq<string>, paths: seq<PathResult>, hash: string): Query {
    Query(spec.name, spec.traits, r.options, mapped, paths, map[], None, None, false, hash)
  }

  /** A second decision is taken. */
  predicate Consulted(o: Options) { Ticket(o) || o.previewHash != "" }

  /** Some decision saw high risk, a needed confirmation or a missing capability. */
  predicate Guarded(p: Policy, spec: ToolSpec, r: Request, w: World) {
    var q1 := Asked(spec, r, w.mapped, w.paths, "");
    var q2 := Asked(spec, r, w.mapped, w.pathsAgain, w.previewHash);
    Verdict(p, q1).risk == High || NeedsConfirmation(p, q1) || !Entitled(p, q1)
    || (Consulted(r.options) && (Verdict(p, q2).risk == High || NeedsConfirmation(p, q2)))
  }

  /** The call carries a ticket for the preview just built. */
  predicate Ticketed(r: Request, w: World) { Confirmed(r.options) && r.options.previewHash == w.previewHash }

  /** A permission as call and policy set it; by default only reading is allowed. */
  predicate Granted(p: Policy, o: Options, permission: Permission) {
    if permission in o.granted then o.granted[permission]
    else if permission in p.defaults then p.defaults[permission]
    else permission == AllowRead
  }

  /** What holds of every call that reaches a handler: a real call of a tool that is
      neither disabled, blocked, blocked by scope nor an administrator's, on no path out
      of bounds, with the permission of its scope or a complete confirmation, and with
      one if it is risky or someone asks for it. */
  predicate Cleared(p: Policy, spec: ToolSpec, r: Request, w: World) {
    var (t, o) := (spec.traits, r.options);
    var ticket := o.confirmed && o.confirmationId != "" && o.previewHash != "";
    && !o.dryRun && t.enabled && !t.blocked && !t.admin && t.risk != "blocked"
    && spec.name !in p.blockedTools && t.scope !in p.blockedScopes
    && (forall x | x in w.paths && x.blocked ::
          x.sensitive && (t.allowSensitiveMetadata || (t.allowSensitiveRead && x.withinWorkspace)))
    && (t.risk == "high" || t.requiresConfirmation || o.requireConfirmation ==> ticket)
    && (ticket
        || (t.scope == ReadWorkspace && Granted(p, o, AllowRead))
        || (t.scope == WriteWorkspace && Granted(p, o, AllowWrite))
        || (t.scope == Network && Granted(p, o, AllowNetwork))
        || ((t.scope == Command || t.scope == CodeExecution) && Granted(p, o, AllowCommand))
        || (t.scope == ShellCommand && Granted(p, o, AllowShell))
        || (t.scope == Mcp && Granted(p, o, AllowMcp))
        || t.scope == NoScope)
  }

  lemma ApprovedIsCleared(p: Policy, spec: ToolSpec, r: Request, w: World)
    requires Approved(p, Asked(spec, r, w.mapped, w.paths, ""), Asked(spec, r, w.mapped, w.pathsAgain, w.previewHash))
    requires !r.options.dryRun && spec.traits.enabled
    ensures Cleared(p, spec, r, w)
  {
    var q := Asked(spec, r, w.mapped, w.paths, "");
    RiskIsHighestNamed(q);
    ToolNamesRank(q);
    hide BaseRisk, SaysRank;
  }

  lemma ToolNamesRank(q: Query)
    ensures var named := RankNamed(q.traits.risk); named.Some? ==> SaysRank(q, named.value)
  {
  }

  /** And nothing else is asked for: a real call of a plain tool of low risk, without a
      preview hash, on open paths and with the permission of its scope, is approved. */
  lemma PlainCallIsApproved(p: Policy, spec: ToolSpec, r: Request, w: World)
    requires Cleared(p, spec, r, w) && r.options.previewHash == ""
    requires spec.traits.risk == "low" && p.table.low == Allow && forall m | m in w.mapped :: RankNamed(m).None?
    requires forall x | x in w.paths :: !x.blocked
    ensures Approved(p, Asked(spec, r, w.mapped, w.paths, ""), Asked(spec, r, w.mapped, w.pathsAgain, w.previewHash))
  {
    var q := Asked(spec, r, w.mapped, w.paths, "");
    RiskIsHighestNamed(q);
    hide BaseRisk;
    assert BaseRisk(q) == Low && !Trespasses(q) && !Sensitive(q);
  }

  class ToolRuntime {
    const registry: ToolRegistry
    const policy: Policy
    const enabled: bool
    /** Canonical names whose handlers were called, in order. */
    var calls: seq<string>

    constructor (registry: ToolRegistry, policy: Policy, enabled: bool)
      ensures this.registry == registry && this.policy == policy && this.enabled == enabled && calls == []
    {
      this.registry, this.policy, this.enabled, calls := registry, policy, enabled, [];
    }

    /** The handler is reached: the tool is found and live, its arguments are valid,
        nothing fails on the way, the call is real and approved. */
    ghost predicate Reaches(r: Request, w: World, spec: ToolSpec) {
      && enabled && spec.traits.enabled && w.argsValid && !w.previewFails && !r.options.dryRun && w.handler.Runs?
      && (w.raises.None? || (w.raises.value.SecondDecision? && !Consulted(r.options)))
      && Approved(policy, Asked(spec, r, w.mapped, w.paths, ""), Asked(spec, r, w.mapped, w.pathsAgain, w.previewHash))
    }

    /** How a call of a found tool ends: at the first step that raises or fails. */
    ghost function Ending(spec: ToolSpec, r: Request, w: World): Result {
      var d1 := Verdict(policy, Asked(spec, r, w.mapped, w.paths, ""));
      var d2 := Verdict(policy, Asked(spec, r, w.mapped, w.pathsAgain, w.previewHash));
      var second := Consulted(r.options);
      if w.raises == Some(Validation) then Internal
      else if !spec.traits.enabled || !w.argsValid then Invalid
      else if w.raises == Some(FirstDecision) then Internal
      else if !d1.allowed then Refused(d1.code)
      else if w.raises == Some(Preview) || (second && w.raises == Some(SecondDecision)) then Internal
      else if second && !d2.allowed then Refused(d2.code)
      else if w.previewFails then PreviewFailed
      else if r.options.dryRun then (if Previewable(spec.traits) then DryRun else DryRunUnsupported)
      else if w.raises == Some(Resolution) then Internal
      else if w.handler.Runs? then Called(w.handler.outcome) else NotImplemented
    }

    /** The handler is called at most once, on exactly the conditions above; that of a
        guarded tool only with a ticket for the preview just built. */
    method Execute(r: Request, w: World) returns (result: Result)
      requires registry.Valid()
      modifies this`calls
      ensures var name := Resolved(registry.View(), r.tool);
              && (result.Called? <==>
                    name.Some? && name.value in registry.specs && Reaches(r, w, registry.specs[name.value]))
              && (result.Called? ==> w.handler == Runs(result.outcome) && calls == old(calls) + [name.value])
              && (!result.Called? ==> calls == old(calls))
              && (result.Called? && w.previewHash != "" && Guarded(policy, registry.specs[name.value], r, w) ==>
                    Ticketed(r, w))
              && (result.Called? ==> Cleared(policy, registry.specs[name.value], r, w))
      ensures var name := Resolved(registry.View(), r.tool);
              result == if !enabled then Disabled
                        else if name.Some? && name.value in registry.specs then Ending(registry.specs[name.value], r, w)
                        else NotFound
    {
      hide Verdict, Approved, Resolved, Consistent, Previewable, Ticketed, Guarded, Ticket, Asked, Cleared;
      if !enabled {
        return Disabled;
      }
      var name := registry.ResolveName(r.tool);
      if name.None? {
        return NotFound;
      }
      var spec := registry.Get(r.tool);
      if spec == null {
        return NotFound;
      }
      if w.raises == Some(Validation) {
        return Internal;
      }
      if !spec.traits.enabled || !w.argsValid {
        return Invalid;
      }
      result := Proceed(spec, r, w);
    }

    /** From the first decision to the handler. */
    method Proceed(spec: ToolSpec, r: Request, w: World) returns (result: Result)
      requires enabled && spec.traits.enabled && w.argsValid && w.raises != Some(Validation)
      modifies this`calls
      ensures result.Called? <==> Reaches(r, w, spec)
      ensures result.Called? ==> w.handler == Runs(result.outcome)
      ensures calls == if result.Called? then old(calls) + [spec.name] else old(calls)
      ensures result.Called? && w.previewHash != "" && Guarded(policy, spec, r, w) ==> Ticketed(r, w)
      ensures result.Called? ==> Cleared(policy, spec, r, w)
      ensures result == Ending(spec, r, w)
    {
      hide Verdict, Approved, Previewable, Ticketed, Guarded, Ticket, Asked, Cleared;
      ApprovedMeans(policy, spec, r, w);
      if w.raises == Some(FirstDecision) {
        return Internal;
      }
      var decision := Decide(policy, Asked(spec, r, w.mapped, w.paths, ""));
      if !decision.allowed {
        return Refused(decision.code);
      }
      if w.raises == Some(Preview) {
        return Internal;
      }
      if Ticket(r.options) || r.options.previewHash != "" {
        if w.raises == Some(SecondDecision) {
          return Internal;
        }
        decision := Decide(policy, Asked(spec, r, w.mapped, w.pathsAgain, w.previewHash));
        if !decision.allowed {
          return Refused(decision.code);
        }
      }
      if w.previewFails {
        return PreviewFailed;
      }
      if r.options.dryRun {
        if !Previewable(spec.traits) {
          return DryRunUnsupported;
        }
        return DryRun;
      }
      if w.raises == Some(Resolution) {
        return Internal;
      }
      if !w.handler.Runs? {
        return NotImplemented;
      }
      assert w.raises.None? || w.raises.value.SecondDecision?;
      if w.previewHash != "" { HandlerSafety(policy, spec, r, w); }
      ApprovedIsCleared(policy, spec, r, w);
      calls := calls + [spec.name];
      result := Called(w.handler.outcome);
    }
  }

  /** What the two decisions together ask of a real call: no hard block at either
      moment, a needed confirmation ticketed, no missing capability unticketed,
      and a confirmed preview hash that is the fresh one. */
  predicate Approved(p: Policy, q1: Query, q2: Query) {
    && !HardBlocked(p, q1)
    && (Consulted(q1.options) ==> !HardBlocked(p, q2) && !Stale(q2))
    && (!Entitled(p, q1) || NeedsConfirmation(p, q1) || (Consulted(q1.options) && NeedsConfirmation(p, q2))
        ==> Confirmed(q1.options))
  }

  lemma ApprovedMeans(p: Policy, spec: ToolSpec, r: Request, w: World)
    ensures var q1 := Asked(spec, r, w.mapped, w.paths, "");
            var q2 := Asked(spec, r, w.mapped, w.pathsAgain, w.previewHash);
            !r.options.dryRun ==>
              (Approved(p, q1, q2) <==> Verdict(p, q1).allowed && (Consulted(r.options) ==> Verdict(p, q2).allowed))
  {
    hide Verdict, HardBlocked, NeedsConfirmation, Entitled;
    var q1 := Asked(spec, r, w.mapped, w.paths, "");
    var q2 := Asked(spec, r, w.mapped, w.pathsAgain, w.previewHash);
    AllowedIff(p, q1);
    AllowedIff(p, q2);
    SameAuthority(p, q1, q2);
  }

  lemma SameAuthority(p: Policy, q1: Query, q2: Query)
    requires q1.traits == q2.traits && q1.options == q2.options && q1.session == q2.session
    ensures Entitled(p, q1) == Entitled(p, q2)
  {
  }

  /** Handler safety over policy and runtime: when both decisions let a real call
      through, nothing is left to confirm, and if either saw a reason to guard the
      call, it carries a ticket for the preview just built. */
  lemma HandlerSafety(p: Policy, spec: ToolSpec, r: Request, w: World)
    requires !r.options.dryRun && w.previewHash != ""
    requires Verdict(p, Asked(spec, r, w.mapped, w.paths, "")).allowed
    requires Consulted(r.options) ==> Verdict(p, Asked(spec, r, w.mapped, w.pathsAgain, w.previewHash)).allowed
    ensures var q1 := Asked(spec, r, w.mapped, w.paths, "");
            var q2 := Asked(spec, r, w.mapped, w.pathsAgain, w.previewHash);
            var last := Verdict(p, if Consulted(r.options) then q2 else q1);
            && !last.requiresConfirmation
            && (Guarded(p, spec, r, w) ==> Ticketed(r, w))
  {
    hide Verdict, HardBlocked, FinalRisk, Entitled, Sensitive;
    var q1 := Asked(spec, r, w.mapped, w.paths, "");
    var q2 := Asked(spec, r, w.mapped, w.pathsAgain, w.previewHash);
    AllowedIff(p, q1);
    AllowedIff(p, q2);
    SameAuthority(p, q1, q2);
  }

  /** Without a ticket no preview hash, forged or genuine, opens a guarded tool. */
  lemma NoTicketNoCall(p: Policy, q1: Query, q2: Query)
    requires !Confirmed(q1.options) && (NeedsConfirmation(p, q1) || !Entitled(p, q1))
    ensures !Approved(p, q1, q2)
  {
    hide HardBlocked, NeedsConfirmation, Entitled;
  }
}
