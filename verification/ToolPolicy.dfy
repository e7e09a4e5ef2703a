/** The tool policy's ordered decision, what it amounts to, and how it responds to
    more capabilities or more risk. */
module ToolPolicy {
  import opened Common
  import opened PyText

  // ---------- Risk ----------

  datatype Risk = Low | Medium | High | Blocked

  datatype Action = Allow | Confirm | Block

  function Rank(r: Risk): nat {
    match r case Low => 0 case Medium => 1 case High => 2 case Blocked => 3
  }

  function Weight(a: Action): nat {
    match a case Allow => 0 case Confirm => 1 case Block => 2
  }

  function ParseRisk(s: string): Option<Risk> {
    if s == "low" then Some(Low)
    else if s == "medium" then Some(Medium)
    else if s == "high" then Some(High)
    else if s == "blocked" then Some(Blocked)
    else None
  }

  function ParseAction(s: string): Option<Action> {
    if s == "allow" then Some(Allow)
    else if s == "confirm" then Some(Confirm)
    else if s == "block" then Some(Block)
    else None
  }

  function Higher(a: Risk, b: Risk): Risk {
    if Rank(b) > Rank(a) then b else a
  }

  /** `_max_risk`: an unknown first level counts as medium, an unknown second is ignored. */
  function MaxRisk(first: Option<Risk>, second: Option<Risk>): Risk {
    var known := if first.Some? then first.value else Medium;
    if second.Some? then Higher(known, second.value) else known
  }

  /** The level a caller asks for; nothing asked is low, nonsense is medium. */
  function Level(requested: Option<string>): Risk {
    if requested.None? || requested.value == "" then Low else MaxRisk(ParseRisk(requested.value), None)
  }

  /** `mapped` is what the tool's risk-by-argument table says of each argument. */
  function MetadataRisk(mapped: seq<string>): Option<Risk> {
    if mapped == [] then None
    else
      var earlier := MetadataRisk(mapped[..|mapped| - 1]);
      var risk := ParseRisk(mapped[|mapped| - 1]);
      if risk.None? then earlier else Some(Higher(if earlier.Some? then earlier.value else Low, risk.value))
  }

  method RiskFromMetadata(mapped: seq<string>) returns (effective: Option<Risk>)
    ensures effective == MetadataRisk(mapped)
  {
    effective := None;
    for i := 0 to |mapped|
      invariant effective == MetadataRisk(mapped[..i])
    {
      assert mapped[..i + 1][..i] == mapped[..i];
      var risk := ParseRisk(mapped[i]);
      if risk.Some? {
        effective := Some(MaxRisk(Some(if effective.Some? then effective.value else Low), risk));
      }
    }
    assert mapped[..|mapped|] == mapped;
  }

  /** The metadata risk is the highest level any argument maps to. */
  lemma {:induction false} MetadataRiskIsHighest(mapped: seq<string>)
    ensures MetadataRisk(mapped).None? <==> forall m | m in mapped :: ParseRisk(m).None?
    ensures MetadataRisk(mapped).Some? ==>
              && (forall m | m in mapped && ParseRisk(m).Some? ::
                    Rank(ParseRisk(m).value) <= Rank(MetadataRisk(mapped).value))
              && (exists m | m in mapped :: ParseRisk(m) == MetadataRisk(mapped))
  {
    if mapped != [] {
      hide ParseRisk;
      var (rest, last) := (mapped[..|mapped| - 1], mapped[|mapped| - 1]);
      assert mapped == rest + [last] && last in mapped;
      MetadataRiskIsHighest(rest);
    }
  }

  // ---------- Policy, tool and call ----------

  datatype Scope = NoScope | ReadWorkspace | WriteWorkspace | Network | Command | ShellCommand | CodeExecution | Mcp

  datatype Permission = AllowRead | AllowWrite | AllowNetwork | AllowCommand | AllowShell | AllowMcp

  function PermissionFor(s: Scope): Option<Permission> {
    match s
    case NoScope => None
    case ReadWorkspace => Some(AllowRead)
    case WriteWorkspace => Some(AllowWrite)
    case Network => Some(AllowNetwork)
    case Command => Some(AllowCommand)
    case ShellCommand => Some(AllowShell)
    case CodeExecution => Some(AllowCommand)
    case Mcp => Some(AllowMcp)
  }

  /** What to do at each risk. */
  datatype Table = Table(low: Action, medium: Action, high: Action, blocked: Action) {
    function At(r: Risk): Action {
      match r case Low => low case Medium => medium case High => high case Blocked => blocked
    }

    function With(r: Risk, a: Action): Table {
      match r
      case Low => this.(low := a)
      case Medium => this.(medium := a)
      case High => this.(high := a)
      case Blocked => this.(blocked := a)
    }
  }

  const DEFAULT_TABLE := Table(Allow, Allow, Confirm, Block)

  datatype Policy = Policy(
    blockedTools: set<string>, blockedScopes: set<Scope>, table: Table, defaults: map<Permission, bool>)

  /** The parts of a tool's specification the policy reads. */
  datatype Traits = Traits(
    enabled: bool, risk: string, requiresConfirmation: bool, scope: Scope, supportsDryRun: bool,
    blocked: bool, admin: bool, allowSensitiveMetadata: bool, allowSensitiveRead: bool)

  datatype Options = Options(
    dryRun: bool, requireConfirmation: bool, confirmed: bool, confirmationId: string, previewHash: string,
    granted: map<Permission, bool>)

  datatype PathResult = PathResult(blocked: bool, sensitive: bool, withinWorkspace: bool, code: string)

  /** One question to the policy. `expectedHash` is empty before a preview exists. */
  datatype Query = Query(
    tool: string, traits: Traits, options: Options, mapped: seq<string>, paths: seq<PathResult>,
    session: map<Permission, bool>, admin: Option<bool>, requestedRisk: Option<string>,
    requestedConfirmation: bool, expectedHash: string)

  datatype Code =
    | OkCode | ToolDisabled | BlockedByPolicy | PathCode(code: string) | AdminRequired
    | NetworkNotAllowed | CommandBlocked | PermissionDenied | PreviewConflict | ConfirmationRequired

  datatype Decision = Decision(allowed: bool, blocked: bool, requiresConfirmation: bool, risk: Risk, code: Code)

  const BASE := map[AllowRead := true, AllowWrite := false, AllowNetwork := false, AllowCommand := false,
                    AllowShell := false, AllowMcp := false]

  /** Built-in defaults, then the policy's, the call's, the session's. */
  function Capabilities(p: Policy, q: Query): map<Permission, bool> {
    BASE + p.defaults + q.options.granted + q.session
  }

  predicate Holds(p: Policy, q: Query, permission: Permission) {
    permission in Capabilities(p, q) && Capabilities(p, q)[permission]
  }

  predicate Authorised(p: Policy, q: Query) {
    var permission := PermissionFor(q.traits.scope);
    permission.None? || Holds(p, q, permission.value)
  }

  predicate Ticket(o: Options) { o.confirmed && o.confirmationId != "" && o.previewHash != "" }

  /** `_allows_confirmation_preview`. */
  predicate Previewable(t: Traits) {
    t.supportsDryRun || t.risk == "high" || t.risk == "blocked" || t.scope != NoScope
  }

  function PermissionCode(s: Scope): Code {
    if s == Network then NetworkNotAllowed
    else if s == Command || s == ShellCommand || s == CodeExecution then CommandBlocked
    else PermissionDenied
  }

  /** The risk before the paths are looked at. */
  function BaseRisk(q: Query): Risk {
    MaxRisk(ParseRisk(q.traits.risk), Some(MaxRisk(Some(Level(q.requestedRisk)), MetadataRisk(q.mapped))))
  }

  predicate AdminNeeded(q: Query) { if q.admin.Some? then q.admin.value else q.traits.admin }

  // ---------- The table ----------

  function TableFrom(entries: seq<(string, string)>): Table {
    if entries == [] then DEFAULT_TABLE
    else
      var (name, action) := entries[|entries| - 1];
      var (risk, act) := (ParseRisk(Normalize(name)), ParseAction(Normalize(action)));
      var t := TableFrom(entries[..|entries| - 1]);
      if risk.Some? && act.Some? then t.With(risk.value, act.value) else t
  }

  /** `ToolPolicy.__init__`: whatever the configuration says, blocked stays blocked. */
  method MakeTable(entries: seq<(string, string)>) returns (t: Table)
    ensures t == Table(LastAction(entries, "low", Allow), LastAction(entries, "medium", Allow),
                       LastAction(entries, "high", Confirm), Block)
  {
    TableIs(entries);
    hide ParseRisk, ParseAction, Normalize, LastAction;
    t := DEFAULT_TABLE;
    for i := 0 to |entries|
      invariant t == TableFrom(entries[..i])
    {
      assert entries[..i + 1][..i] == entries[..i];
      var (name, action) := entries[i];
      var (risk, act) := (ParseRisk(Normalize(name)), ParseAction(Normalize(action)));
      if risk.Some? && act.Some? {
        t := t.With(risk.value, act.value);
      }
    }
    assert entries[..|entries|] == entries;
    t := t.(blocked := Block);
  }

  /** The action of the last entry for that risk whose words are known, else the built-in one. */
  function LastAction(entries: seq<(string, string)>, risk: string, builtIn: Action): Action {
    if entries == [] then builtIn
    else
      var (name, action) := entries[|entries| - 1];
      if Normalize(name) == risk && Normalize(action) in {"allow", "confirm", "block"} then
        (if Normalize(action) == "allow" then Allow else if Normalize(action) == "block" then Block else Confirm)
      else LastAction(entries[..|entries| - 1], risk, builtIn)
  }

  /** Later entries override earlier ones, risk by risk. */
  lemma {:induction false} TableIs(entries: seq<(string, string)>)
    ensures TableFrom(entries) == Table(LastAction(entries, "low", Allow), LastAction(entries, "medium", Allow),
                                        LastAction(entries, "high", Confirm), LastAction(entries, "blocked", Block))
  {
    hide Normalize;
    if entries != [] { TableIs(entries[..|entries| - 1]); }
  }

  // ---------- The paths ----------

  /** A path the tool may read once the call is confirmed. */
  predicate ReadsSensitive(t: Traits, r: PathResult) {
    r.blocked && r.sensitive && !t.allowSensitiveMetadata && r.withinWorkspace && t.allowSensitiveRead
  }

  predicate Stops(t: Traits, r: PathResult) {
    r.blocked && !(r.sensitive && t.allowSensitiveMetadata) && !ReadsSensitive(t, r)
  }

  /** How the path loop ends: first stopping path, and whether a sensitive read came before it. */
  datatype Scan = Scan(stop: Option<string>, sensitive: bool)

  function Scanned(t: Traits, s: Scan, r: PathResult): Scan {
    if s.stop.Some? then s
    else if Stops(t, r) then Scan(Some(r.code), s.sensitive)
    else Scan(None, s.sensitive || ReadsSensitive(t, r))
  }

  function ScanOf(t: Traits, paths: seq<PathResult>): Scan {
    if paths == [] then Scan(None, false) else Scanned(t, ScanOf(t, paths[..|paths| - 1]), paths[|paths| - 1])
  }

  function RaisedFor(sensitive: bool, risk: Risk): Risk {
    if sensitive then Higher(risk, High) else risk
  }

  // ---------- The decision ----------

  function Refuse(risk: Risk, code: Code): Decision { Decision(false, true, false, risk, code) }

  /** The part after every hard block. */
  function Settle(p: Policy, q: Query, risk: Risk, sensitive: bool): Decision {
    var conflict := q.expectedHash != "" && q.options.confirmed && q.options.previewHash != q.expectedHash;
    var needed := risk == High || q.traits.requiresConfirmation || q.requestedConfirmation
                  || q.options.requireConfirmation || sensitive || p.table.At(risk) == Confirm;
    if !Authorised(p, q) && q.options.dryRun && Previewable(q.traits) then Decision(true, false, true, risk, OkCode)
    else if !Authorised(p, q) && !Ticket(q.options) then Refuse(risk, PermissionCode(q.traits.scope))
    else if conflict then Refuse(risk, PreviewConflict)
    else if !needed || Ticket(q.options) then Decision(true, false, false, risk, OkCode)
    else if q.options.dryRun then Decision(true, false, true, risk, OkCode)
    else Decision(false, false, true, risk, ConfirmationRequired)
  }

  function Verdict(p: Policy, q: Query): Decision {
    var base := BaseRisk(q);
    var scan := ScanOf(q.traits, q.paths);
    var risk := RaisedFor(scan.sensitive, base);
    if !q.traits.enabled then Refuse(base, ToolDisabled)
    else if q.tool in p.blockedTools || q.traits.blocked || q.traits.scope in p.blockedScopes || base == Blocked
            || p.table.At(base) == Block then Refuse(base, BlockedByPolicy)
    else if scan.stop.Some? then Refuse(risk, PathCode(scan.stop.value))
    else if p.table.At(risk) == Block then Refuse(risk, BlockedByPolicy)
    else if AdminNeeded(q) then Refuse(risk, AdminRequired)
    else Settle(p, q, risk, scan.sensitive)
  }

  /** `ToolPolicy.decide`, check by check. */
  method Decide(p: Policy, q: Query) returns (d: Decision)
    ensures d == Verdict(p, q)
  {
    hide BaseRisk, MetadataRisk, Authorised, ParseRisk, ScanOf, Previewable;
    assert ScanOf(q.traits, []) == Scan(None, false) by { EmptyScan(q.traits); }
    var metadata := RiskFromMetadata(q.mapped);
    var risk := MaxRisk(ParseRisk(q.traits.risk), Some(MaxRisk(Some(Level(q.requestedRisk)), metadata)));
    BaseRiskIs(q);
    ghost var base := risk;
    if !q.traits.enabled {
      return Refuse(risk, ToolDisabled);
    }
    if q.tool in p.blockedTools || q.traits.blocked {
      return Refuse(risk, BlockedByPolicy);
    }
    if q.traits.scope in p.blockedScopes {
      return Refuse(risk, BlockedByPolicy);
    }
    if risk == Blocked {
      return Refuse(risk, BlockedByPolicy);
    }
    if p.table.At(risk) == Block {
      return Refuse(risk, BlockedByPolicy);
    }
    var sensitive := false;
    for i := 0 to |q.paths|
      invariant ScanOf(q.traits, q.paths[..i]) == Scan(None, sensitive)
      invariant risk == RaisedFor(sensitive, base)
    {
      var r := q.paths[i];
      ScanStep(q.traits, q.paths, i);
      if r.blocked {
        if r.sensitive && q.traits.allowSensitiveMetadata {
          continue;
        }
        if r.sensitive && r.withinWorkspace && q.traits.allowSensitiveRead {
          sensitive := true;
          risk := MaxRisk(Some(risk), Some(High));
          continue;
        }
        ScanStays(q.traits, q.paths, i + 1);
        return Refuse(risk, PathCode(r.code));
      }
    }
    assert q.paths[..|q.paths|] == q.paths;
    if p.table.At(risk) == Block {
      return Refuse(risk, BlockedByPolicy);
    }
    if AdminNeeded(q) {
      return Refuse(risk, AdminRequired);
    }
    if !Authorised(p, q) {
      if q.options.dryRun && Previewable(q.traits) {
        return Decision(true, false, true, risk, OkCode);
      }
      if !Ticket(q.options) {
        return Refuse(risk, PermissionCode(q.traits.scope));
      }
    }
    if q.expectedHash != "" && q.options.confirmed && q.options.previewHash != q.expectedHash {
      return Refuse(risk, PreviewConflict);
    }
    var requested := q.requestedConfirmation || q.options.requireConfirmation || sensitive
                     || p.table.At(risk) == Confirm;
    if !(risk == High || q.traits.requiresConfirmation || requested) {
      return Decision(true, false, false, risk, OkCode);
    }
    if !Ticket(q.options) {
      if q.options.dryRun {
        return Decision(true, false, true, risk, OkCode);
      }
      return Decision(false, false, true, risk, ConfirmationRequired);
    }
    d := Decision(true, false, false, risk, OkCode);
  }

  lemma BaseRiskIs(q: Query)
    ensures BaseRisk(q)
         == MaxRisk(ParseRisk(q.traits.risk), Some(MaxRisk(Some(Level(q.requestedRisk)), MetadataRisk(q.mapped))))
  {
  }

  lemma EmptyScan(t: Traits)
    ensures ScanOf(t, []) == Scan(None, false)
  {
  }

  lemma ScanStep(t: Traits, paths: seq<PathResult>, i: nat)
    requires i < |paths|
    ensures ScanOf(t, paths[..i + 1]) == Scanned(t, ScanOf(t, paths[..i]), paths[i])
  {
    assert paths[..i + 1][..i] == paths[..i];
  }

  /** Once stopped, the loop's result is final. */
  lemma {:induction false} ScanStays(t: Traits, paths: seq<PathResult>, k: nat)
    requires k <= |paths| && ScanOf(t, paths[..k]).stop.Some?
    ensures ScanOf(t, paths) == ScanOf(t, paths[..k])
  {
    if k == |paths| {
      assert paths[..k] == paths;
    } else {
      var rest := paths[..|paths| - 1];
      assert rest[..k] == paths[..k];
      ScanStays(t, rest, k);
    }
  }

  // ---------- What the decision amounts to ----------

  // The rest of this module speaks of the fields of policy, tool and call, not of the
  // helpers of the decision above.

  /** A capability flag: the session's word, else the call's, else the policy's, else
      the built-in one, which grants reading alone. */
  predicate Flag(p: Policy, q: Query, permission: Permission) {
    if permission in q.session then q.session[permission]
    else if permission in q.options.granted then q.options.granted[permission]
    else if permission in p.defaults then p.defaults[permission]
    else permission == AllowRead
  }

  /** The flag that the tool's scope asks for, if any, is set. */
  predicate Entitled(p: Policy, q: Query) {
    var scope := q.traits.scope;
    && (scope == ReadWorkspace ==> Flag(p, q, AllowRead))
    && (scope == WriteWorkspace ==> Flag(p, q, AllowWrite))
    && (scope == Network ==> Flag(p, q, AllowNetwork))
    && (scope == Command || scope == CodeExecution ==> Flag(p, q, AllowCommand))
    && (scope == ShellCommand ==> Flag(p, q, AllowShell))
    && (scope == Mcp ==> Flag(p, q, AllowMcp))
  }

  lemma AuthorisedMeans(p: Policy, q: Query)
    ensures Authorised(p, q) <==> Entitled(p, q)
  {
    forall k ensures Holds(p, q, k) <==> Flag(p, q, k) { HoldsMeans(p, q, k); }
    hide Holds, Flag;
  }

  lemma HoldsMeans(p: Policy, q: Query, k: Permission)
    ensures Holds(p, q, k) <==> Flag(p, q, k)
  {
  }

  /** The call carries a complete confirmation. */
  predicate Confirmed(o: Options) { o.confirmed && o.confirmationId != "" && o.previewHash != "" }

  // Levels of risk by rank: low 0, medium 1, high 2, blocked 3.

  function RankNamed(text: string): Option<nat> {
    if text == "low" then Some(0) else if text == "medium" then Some(1)
    else if text == "high" then Some(2) else if text == "blocked" then Some(3) else None
  }

  /** Some source of the call's risk says `n`: the tool or the caller, of whom an unknown
      word counts as medium and silence of the caller as low, or an argument. */
  predicate SaysRank(q: Query, n: nat) {
    var asked := if q.requestedRisk.Some? then q.requestedRisk.value else "";
    || RankNamed(q.traits.risk) == Some(n) || (RankNamed(q.traits.risk).None? && n == 1)
    || RankNamed(asked) == Some(n) || (RankNamed(asked).None? && n == if asked == "" then 0 else 1)
    || exists m | m in q.mapped :: RankNamed(m) == Some(n)
  }

  /** The risk before the paths are looked at is the highest that any source names. */
  lemma RiskIsHighestNamed(q: Query)
    ensures var rank := match BaseRisk(q) case Low => 0 case Medium => 1 case High => 2 case Blocked => 3;
            SaysRank(q, rank) && forall n: nat | SaysRank(q, n) :: n <= rank
  {
    hide MetadataRisk;
    MetadataRiskIsHighest(q.mapped);
  }

  /** Some sensitive file is read under confirmation. */
  predicate Sensitive(q: Query) {
    q.traits.allowSensitiveRead && !q.traits.allowSensitiveMetadata
    && exists r | r in q.paths :: r.blocked && r.sensitive && r.withinWorkspace
  }

  /** Some path is out of bounds for the tool. */
  predicate Trespasses(q: Query) {
    exists r | r in q.paths ::
      r.blocked
      && (r.sensitive ==> !q.traits.allowSensitiveMetadata && !(q.traits.allowSensitiveRead && r.withinWorkspace))
  }

  function FinalRisk(q: Query): Risk {
    if Sensitive(q) && BaseRisk(q) != Blocked then High else BaseRisk(q)
  }

  /** Refused whatever is confirmed or permitted. */
  predicate HardBlocked(p: Policy, q: Query) {
    || !q.traits.enabled
    || q.tool in p.blockedTools || q.traits.blocked || q.traits.scope in p.blockedScopes
    || BaseRisk(q) == Blocked || p.table.At(BaseRisk(q)) == Block || p.table.At(FinalRisk(q)) == Block
    || Trespasses(q)
    || q.admin == Some(true) || (q.admin.None? && q.traits.admin)
  }

  predicate NeedsConfirmation(p: Policy, q: Query) {
    || FinalRisk(q) == High || p.table.At(FinalRisk(q)) == Confirm
    || q.traits.requiresConfirmation || q.requestedConfirmation || q.options.requireConfirmation || Sensitive(q)
  }

  /** A confirmed call whose preview is not the expected one. */
  predicate Stale(q: Query) {
    q.expectedHash != "" && q.options.confirmed && q.options.previewHash != q.expectedHash
  }

  /** Only a preview is asked for, of a tool that has one. */
  predicate PreviewOnly(p: Policy, q: Query) {
    !Entitled(p, q) && q.options.dryRun
    && (q.traits.supportsDryRun || q.traits.risk == "high" || q.traits.risk == "blocked" || q.traits.scope != NoScope)
  }

  predicate Permitted(p: Policy, q: Query) {
    !HardBlocked(p, q)
    && (PreviewOnly(p, q)
        || ((Entitled(p, q) || Confirmed(q.options)) && !Stale(q)
            && (NeedsConfirmation(p, q) ==> Confirmed(q.options) || q.options.dryRun)))
  }

  lemma {:induction false} ScanMeans(t: Traits, paths: seq<PathResult>)
    ensures ScanOf(t, paths).stop.Some? <==> exists r | r in paths :: Stops(t, r)
    ensures ScanOf(t, paths).stop.None? ==>
              (ScanOf(t, paths).sensitive <==> exists r | r in paths :: ReadsSensitive(t, r))
  {
    if paths != [] {
      hide Stops, ReadsSensitive;
      var (rest, last) := (paths[..|paths| - 1], paths[|paths| - 1]);
      assert paths == rest + [last] && last in paths;
      ScanMeans(t, rest);
    }
  }

  /** The ordered decision allows exactly the calls that pass every hard block
      and either only preview, or are authorised, fresh and confirmed if need be.
      It never leaves a confirmation pending except on a dry run. */
  lemma AllowedIff(p: Policy, q: Query)
    ensures var d := Verdict(p, q);
            && (d.allowed <==> Permitted(p, q))
            && (d.allowed ==> d.risk == FinalRisk(q) && d.code == OkCode && !d.blocked)
            && (d.allowed && d.requiresConfirmation ==> q.options.dryRun)
            && (!d.allowed && d.requiresConfirmation <==> d.code == ConfirmationRequired)
            && (!d.allowed ==> (d.blocked <==> d.code != ConfirmationRequired))
  {
    hide BaseRisk, ScanOf, Stops, ReadsSensitive, Authorised, Entitled, Trespasses, Sensitive;
    ScanMeans(q.traits, q.paths);
    PathsMean(q);
    AuthorisedMeans(p, q);
  }

  lemma PathsMean(q: Query)
    ensures Trespasses(q) <==> exists r | r in q.paths :: Stops(q.traits, r)
    ensures !Trespasses(q) ==> (Sensitive(q) <==> exists r | r in q.paths :: ReadsSensitive(q.traits, r))
  {
  }

  /** Refused for lack of a permission alone, by the kind of scope. */
  lemma RefusalNamesScope(p: Policy, q: Query)
    requires !HardBlocked(p, q) && !Entitled(p, q) && !Confirmed(q.options) && !q.options.dryRun
    ensures Verdict(p, q).code
         == if q.traits.scope == Network then NetworkNotAllowed
            else if q.traits.scope in {Command, ShellCommand, CodeExecution} then CommandBlocked else PermissionDenied
  {
    hide BaseRisk, ScanOf, Stops, ReadsSensitive, Authorised, Entitled, Trespasses, Sensitive;
    ScanMeans(q.traits, q.paths);
    PathsMean(q);
    AuthorisedMeans(p, q);
  }

  /** A real call without a confirmation is let through only with the flag of its
      scope, and that flag is all it lacks once nothing else speaks against it. */
  lemma ScopeNeedsItsFlag(p: Policy, q: Query)
    requires var o := q.options; !o.dryRun && !(o.confirmed && o.confirmationId != "" && o.previewHash != "")
    ensures Verdict(p, q).allowed ==> Entitled(p, q)
    ensures !HardBlocked(p, q) && !NeedsConfirmation(p, q) && !Stale(q) ==> (Verdict(p, q).allowed <==> Entitled(p, q))
  {
    hide Verdict, HardBlocked, NeedsConfirmation, Stale, Entitled;
    AllowedIff(p, q);
  }

  // ---------- More capabilities ----------

  /** The same question with at least the permissions of the other. */
  ghost predicate GrantsMore(p: Policy, q: Query, more: Query) {
    more.(options := q.options, session := q.session) == q
    && more.options.(granted := q.options.granted) == q.options
    && forall k :: Flag(p, q, k) ==> Flag(p, more, k)
  }

  lemma SameBlocks(p: Policy, q: Query, more: Query)
    requires GrantsMore(p, q, more)
    ensures HardBlocked(p, q) == HardBlocked(p, more) && NeedsConfirmation(p, q) == NeedsConfirmation(p, more)
    ensures Stale(q) == Stale(more) && Confirmed(q.options) == Confirmed(more.options)
  {
    hide Entitled, Flag, ParseRisk, MetadataRisk;
    assert more.traits == q.traits && more.paths == q.paths && more.mapped == q.mapped;
    assert Sensitive(q) == Sensitive(more) && BaseRisk(q) == BaseRisk(more);
  }

  lemma EntitledGrows(p: Policy, q: Query, more: Query)
    requires GrantsMore(p, q, more)
    ensures Entitled(p, q) ==> Entitled(p, more)
  {
    hide Flag;
    assert more.traits == q.traits;
  }

  /** Granting capabilities turns an allowed call into a refused one exactly in one
      case: a dry run that was only let through for its preview, confirmed
      against an outdated one. On real calls it never does. */
  lemma CapabilitiesMonotone(p: Policy, q: Query, more: Query)
    requires GrantsMore(p, q, more)
    ensures Verdict(p, q).allowed && !Verdict(p, more).allowed
       <==> PreviewOnly(p, q) && Entitled(p, more) && !HardBlocked(p, q) && Stale(q)
    ensures !q.options.dryRun && Verdict(p, q).allowed ==> Verdict(p, more).allowed
  {
    hide Verdict, HardBlocked, NeedsConfirmation, Stale, Confirmed, Entitled;
    AllowedIff(p, q);
    AllowedIff(p, more);
    SameBlocks(p, q, more);
    assert more.options.dryRun == q.options.dryRun && more.traits == q.traits;
    assert Entitled(p, q) ==> Entitled(p, more) by { EntitledGrows(p, q, more); }
  }

  /** The exception: a dry run of a network tool, confirmed for another preview, is
      let through without the capability and refused with it. */
  lemma GrantRefusesDryRun()
    ensures var p := Policy({}, {}, DEFAULT_TABLE, map[]);
            var q := DryCall(map[]);
            Verdict(p, q).allowed && !Verdict(p, q.(session := map[AllowNetwork := true])).allowed
  {
    var p := Policy({}, {}, DEFAULT_TABLE, map[]);
    var (q, more) := (DryCall(map[]), DryCall(map[AllowNetwork := true]));
    hide Verdict;
    AllowedIff(p, q);
    AllowedIff(p, more);
    assert q.paths == [] && !Sensitive(q) && BaseRisk(q) == Low;
    assert more.paths == [] && !Sensitive(more) && BaseRisk(more) == Low;
    assert !Flag(p, q, AllowNetwork) && Flag(p, more, AllowNetwork);
  }

  function DryCall(session: map<Permission, bool>): Query {
    Query("tool", Traits(true, "low", false, Network, false, false, false, false, false),
          Options(true, false, true, "id", "old", map[]), [], [], session, None, None, false, "new")
  }

  // ---------- More risk ----------

  /** What the table comes to: high risk is confirmed at the least. */
  function Effective(t: Table, r: Risk): Action {
    if r == High && t.At(r) == Allow then Confirm else t.At(r)
  }

  /** The table asks for no less as risk grows. */
  predicate OrderPreserving(t: Table) {
    Weight(Effective(t, Low)) <= Weight(Effective(t, Medium)) <= Weight(Effective(t, High))
  }

  /** The same question asked at the same or a higher risk. */
  predicate AsksMore(q: Query, more: Query) {
    more.(requestedRisk := q.requestedRisk) == q && Rank(Level(q.requestedRisk)) <= Rank(Level(more.requestedRisk))
  }

  lemma HigherMonotone(first: Option<Risk>, a: Risk, b: Risk, second: Option<Risk>)
    requires Rank(a) <= Rank(b)
    ensures Rank(MaxRisk(first, Some(MaxRisk(Some(a), second)))) <= Rank(MaxRisk(first, Some(MaxRisk(Some(b), second))))
  {
  }

  lemma RiskGrows(q: Query, more: Query)
    requires AsksMore(q, more)
    ensures Rank(BaseRisk(q)) <= Rank(BaseRisk(more)) && Rank(FinalRisk(q)) <= Rank(FinalRisk(more))
    ensures Sensitive(q) == Sensitive(more)
  {
    hide ParseRisk, MetadataRisk, Level;
    assert more.traits == q.traits && more.paths == q.paths && more.mapped == q.mapped;
    HigherMonotone(ParseRisk(q.traits.risk), Level(q.requestedRisk), Level(more.requestedRisk), MetadataRisk(q.mapped));
  }

  /** Raising the requested risk never turns a refused call, dry or not, into an
      allowed one, provided the table is order preserving. */
  lemma RiskMonotone(p: Policy, q: Query, more: Query)
    requires OrderPreserving(p.table) && AsksMore(q, more)
    ensures Verdict(p, more).allowed ==> Verdict(p, q).allowed
  {
    hide Verdict, Entitled, Confirmed, Trespasses, BaseRisk, Sensitive, Level;
    AllowedIff(p, q);
    AllowedIff(p, more);
    RiskGrows(q, more);
    SameOtherwise(p, q, more);
  }

  lemma SameOtherwise(p: Policy, q: Query, more: Query)
    requires AsksMore(q, more)
    ensures Entitled(p, q) == Entitled(p, more) && q.admin == more.admin && Trespasses(q) == Trespasses(more)
    ensures q.options == more.options && q.traits == more.traits && q.tool == more.tool && q.paths == more.paths
    ensures q.expectedHash == more.expectedHash && q.requestedConfirmation == more.requestedConfirmation
  {
    hide Level;
  }

  /** A plain tool asked for at a given risk, with or without a ticket. */
  function PlainCall(risk: string, ticket: bool): Query {
    var o := if ticket then Options(false, false, true, "id", "hash", map[])
             else Options(false, false, false, "", "", map[]);
    Query("tool", Traits(true, "low", false, NoScope, false, false, false, false, false), o, [], [], map[], None,
          Some(risk), false, "")
  }

  lemma PlainCallAllowed(t: Table, name: string, ticket: bool)
    requires name == "low" || name == "medium" || name == "high"
    ensures var p := Policy({}, {}, t, map[]);
            var action := if name == "low" then t.low else if name == "medium" then t.medium
                          else if t.high == Allow then Confirm else t.high;
            Verdict(p, PlainCall(name, ticket)).allowed <==> action == Allow || (action == Confirm && ticket)
  {
    hide Verdict;
    var (p, q) := (Policy({}, {}, t, map[]), PlainCall(name, ticket));
    AllowedIff(p, q);
    assert q.paths == [] && q.mapped == [] && !Sensitive(q);
    assert BaseRisk(q) == ParseRisk(name).value;
  }

  /** And only then: any other table has a call that is refused at one risk and
      allowed at a higher one. */
  lemma DisorderShows(t: Table)
    requires !OrderPreserving(t)
    ensures exists q, more :: AsksMore(q, more)
                              && !Verdict(Policy({}, {}, t, map[]), q).allowed
                              && Verdict(Policy({}, {}, t, map[]), more).allowed
  {
    hide Verdict;
    var (low, high) := if Weight(Effective(t, Low)) > Weight(Effective(t, Medium)) then ("low", "medium")
                       else ("medium", "high");
    var ticket := Effective(t, ParseRisk(low).value) == Block;
    PlainCallAllowed(t, low, ticket);
    PlainCallAllowed(t, high, ticket);
    assert AsksMore(PlainCall(low, ticket), PlainCall(high, ticket));
  }
}
