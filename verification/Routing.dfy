/** Candidate selection and route resolution. */
module Routing {
  import opened Common
  import opened PyText
  import opened ModelErrors
  import H = CandidateHealth
  import T = Truncation

  datatype Credential = Credential(slug: string, enabled: bool)

  /** Limits as metadata spells them, before they are checked to be positive. */
  datatype RawLimits = RawLimits(chars: Option<int>, tokens: Option<int>)

  /** The limits in one metadata object: per model, and for all models. */
  datatype LimitTable = LimitTable(models: map<string, RawLimits>, all: RawLimits)

  datatype ProviderConf = ProviderConf(
    id: string, provider: string, enabled: bool, modelId: Option<string>, defaultModel: Option<string>,
    credentials: seq<Credential>, limits: T.Limits, table: LimitTable)

  datatype ProviderSpec = ProviderSpec(defaultModel: Option<string>, limits: T.Limits, table: LimitTable)

  datatype RouteCandidate = RouteCandidate(
    conf: string, slug: string, model: Option<string>, weight: Option<int>, priority: Option<int>, enabled: bool)

  datatype RouteConfig = RouteConfig(explicitCandidates: bool, candidates: seq<RouteCandidate>)

  /** The configuration one call is resolved against. */
  datatype Setup = Setup(
    route: string,
    routeConfig: Option<RouteConfig>,
    confs: map<string, ProviderConf>,
    specs: map<string, ProviderSpec>,
    managerConf: Option<string>,
    managerSlug: Option<string>,
    managerProvider: string)

  /** The arguments that steer routing, and what is to be sent. */
  datatype CallArgs = CallArgs(
    conf: Option<string>, slug: Option<string>, model: Option<string>, allowFallback: bool,
    allowTruncation: bool, prompt: string, messages: seq<T.Message>)

  predicate Truthy(s: Option<string>) { s.Some? && s.value != "" }

  function Or(a: Option<string>, b: Option<string>): Option<string> { if Truthy(a) then a else b }

  function OrElse(a: Option<string>, b: Option<string>): Option<string> { if a.Some? then a else b }

  function ConfOf(s: Setup, id: string): Option<ProviderConf> {
    var key := Normalize(id);
    if key in s.confs then Some(s.confs[key]) else None
  }

  // ---------- Selection ----------

  /** The model the router's filter keys a candidate by. */
  function FilterModel(item: RouteCandidate, conf: ProviderConf): Option<string> {
    Or(item.model, Or(conf.modelId, conf.defaultModel))
  }

  function FilterCandidate(s: Setup, item: RouteCandidate, conf: ProviderConf): H.Candidate {
    H.Candidate(s.route, item.conf, Some(item.slug), FilterModel(item, conf))
  }

  function FilterKey(s: Setup, item: RouteCandidate, conf: ProviderConf): H.CandidateKey {
    H.MakeCandidateKey(FilterCandidate(s, item, conf))
  }

  predicate Enabled(s: Setup, item: RouteCandidate, excluded: set<H.CandidateKey>) {
    item.enabled && ConfOf(s, item.conf).Some? && ConfOf(s, item.conf).value.enabled
    && FilterKey(s, item, ConfOf(s, item.conf).value) !in excluded
  }

  function Priority(c: RouteCandidate): int { if c.priority.Some? then c.priority.value else 0 }

  function Weight(c: RouteCandidate): int { if c.weight.Some? then c.weight.value else 0 }

  /** Lexicographic on (priority, -weight, provider configuration). */
  predicate Before(a: RouteCandidate, b: RouteCandidate) {
    Priority(a) < Priority(b)
    || (Priority(a) == Priority(b)
        && (Weight(a) > Weight(b) || (Weight(a) == Weight(b) && TextBefore(a.conf, b.conf))))
  }

  /** Position `i` is `sorted(eligible)[0]`: no eligible candidate comes before
      it, and every earlier eligible one comes strictly after it. */
  predicate IsChoice(items: seq<RouteCandidate>, eligible: seq<bool>, i: nat)
    requires |eligible| == |items|
  {
    && i < |items| && eligible[i]
    && (forall j | 0 <= j < |items| && eligible[j] :: !Before(items[j], items[i]))
    && (forall j | 0 <= j < i && eligible[j] :: Before(items[i], items[j]))
  }

  function Choose(items: seq<RouteCandidate>, eligible: seq<bool>): (r: Option<nat>)
    requires |eligible| == |items|
    ensures r.Some? ==> IsChoice(items, eligible, r.value)
    ensures r.None? ==> forall i | 0 <= i < |items| :: !eligible[i]
  {
    if items == [] then None
    else
      var n := |items| - 1;
      var r := Choose(items[..n], eligible[..n]);
      TextOrder(items[n].conf, items[n].conf, items[n].conf);
      if !eligible[n] then r
      else if r.None? then Some(n)
      else
        OrderStep(items, r.value, n);
        if Before(items[n], items[r.value]) then Some(n) else r
  }

  lemma OrderStep(items: seq<RouteCandidate>, i: nat, n: nat)
    requires i < |items| && n < |items|
    ensures !Before(items[n], items[n])
    ensures Before(items[n], items[i]) ==> forall j | 0 <= j < |items| && !Before(items[j], items[i]) ::
              Before(items[n], items[j]) && !Before(items[j], items[n])
  {
    TextOrder(items[n].conf, items[n].conf, items[n].conf);
    if Before(items[n], items[i]) {
      forall j | 0 <= j < |items| && !Before(items[j], items[i])
        ensures Before(items[n], items[j]) && !Before(items[j], items[n])
      {
        TextOrder(items[n].conf, items[i].conf, items[j].conf);
        TextOrder(items[n].conf, items[j].conf, items[j].conf);
      }
    }
  }

  /** The choice is unique, and survives any narrowing that keeps it eligible. */
  lemma ChoiceStable(items: seq<RouteCandidate>, eligible: seq<bool>, narrowed: seq<bool>, i: nat)
    requires |eligible| == |items| == |narrowed|
    requires IsChoice(items, eligible, i) && narrowed[i]
    requires forall j | 0 <= j < |items| && narrowed[j] :: eligible[j]
    ensures Choose(items, narrowed) == Some(i)
  {
    var r := Choose(items, narrowed);
    assert narrowed[r.value] && eligible[r.value];
  }

  /** What the outside world contributes to one resolution: the clock reading and
      configured cooldown each candidate meets. */
  datatype Surroundings = Surroundings(now: nat -> real, configuredCooldown: nat -> bool)

  /** Candidate `i` passes both filters, given the health history `h`. */
  predicate Eligible(
    s: Setup, excluded: set<H.CandidateKey>, cfg: H.Settings, h: seq<H.Event>, around: Surroundings, i: nat)
    requires i < |Candidates(s)|
  {
    var item := Candidates(s)[i];
    Enabled(s, item, excluded) && Healthy(s, cfg, h, around, i)
  }

  /** Candidate `i` passes the health filter. */
  predicate Healthy(s: Setup, cfg: H.Settings, h: seq<H.Event>, around: Surroundings, i: nat)
    requires i < |Candidates(s)| && ConfOf(s, Candidates(s)[i].conf).Some?
  {
    var item := Candidates(s)[i];
    !around.configuredCooldown(i)
    && H.Available(cfg, h, FilterCandidate(s, item, ConfOf(s, item.conf).value), around.now(i))
  }

  /** Which of the first `n` candidates are eligible. */
  function Flags(
    s: Setup, excluded: set<H.CandidateKey>, cfg: H.Settings, h: seq<H.Event>, around: Surroundings, n: nat)
    : (flags: seq<bool>)
    requires n <= |Candidates(s)|
    ensures |flags| == n
  {
    if n == 0 then []
    else Flags(s, excluded, cfg, h, around, n - 1) + [Eligible(s, excluded, cfg, h, around, n - 1)]
  }

  lemma {:induction false} FlagsAt(
    s: Setup, excluded: set<H.CandidateKey>, cfg: H.Settings, h: seq<H.Event>, around: Surroundings, n: nat, i: nat)
    requires i < n <= |Candidates(s)|
    ensures Flags(s, excluded, cfg, h, around, n)[i] <==> Eligible(s, excluded, cfg, h, around, i)
  {
    if i < n - 1 { FlagsAt(s, excluded, cfg, h, around, n - 1, i); }
  }

  /** The position the router picks. */
  function Pick(
    s: Setup, excluded: set<H.CandidateKey>, cfg: H.Settings, h: seq<H.Event>, around: Surroundings): Option<nat>
  {
    Choose(Candidates(s), Flags(s, excluded, cfg, h, around, |Candidates(s)|))
  }

  /** The two filters of the selection, for one candidate. */
  method PassesFilters(
    s: Setup, excluded: set<H.CandidateKey>, health: H.CandidateHealthRegistry, around: Surroundings, i: nat)
    returns (flag: bool)
    requires health.Valid() && i < |Candidates(s)|
    ensures flag <==> Eligible(s, excluded, health.settings, health.history, around, i)
  {
    var item := Candidates(s)[i];
    flag := Enabled(s, item, excluded);
    if flag {
      var c := FilterCandidate(s, item, ConfOf(s, item.conf).value);
      flag := health.IsAvailable(c, around.configuredCooldown(i), around.now(i));
    }
  }

  method FirstEnabledCandidate(
    s: Setup, excluded: set<H.CandidateKey>, health: H.CandidateHealthRegistry, around: Surroundings)
    returns (choice: Option<nat>)
    requires health.Valid()
    ensures choice == Pick(s, excluded, health.settings, health.history, around)
    ensures choice.Some? ==> choice.value < |Candidates(s)|
  {
    var enabled: seq<bool> := [];
    for i := 0 to |Candidates(s)|
      invariant enabled == Flags(s, excluded, health.settings, health.history, around, i)
    {
      var flag := PassesFilters(s, excluded, health, around, i);
      enabled := enabled + [flag];
    }
    choice := Choose(Candidates(s), enabled);
  }

  // ---------- Resolution ----------

  datatype Resolution =
    | Unresolved(code: ErrorCode)
    | Resolved(choice: Option<RouteCandidate>, conf: Option<string>, slug: Option<string>, model: Option<string>,
               limits: T.Limits, truncate: bool)

  // ---------- Context limits ----------

  /** `a or b` on numbers. */
  function Nonzero(a: Option<nat>, b: Option<nat>): Option<nat> { if a.Some? && a.value != 0 then a else b }

  function Positive(n: Option<int>): Option<nat> { if n.Some? && n.value > 0 then Some(n.value) else None }

  function Filled(found: T.Limits, raw: RawLimits): T.Limits {
    T.Limits(Nonzero(found.chars, Positive(raw.chars)), Nonzero(found.tokens, Positive(raw.tokens)))
  }

  /** One metadata object fills in what is still missing, the model's own limits first. */
  function Consulted(found: T.Limits, t: LimitTable, model: Option<string>): T.Limits {
    Filled(if Truthy(model) && model.value in t.models then Filled(found, t.models[model.value]) else found, t.all)
  }

  function ConsultedAll(found: T.Limits, tables: seq<LimitTable>, model: Option<string>): T.Limits {
    if tables == [] then found
    else Consulted(ConsultedAll(found, tables[..|tables| - 1], model), tables[|tables| - 1], model)
  }

  function Tables(conf: Option<ProviderConf>, spec: ProviderSpec): seq<LimitTable> {
    (if conf.Some? then [conf.value.table] else []) + [spec.table]
  }

  function DeclaredLimits(conf: Option<ProviderConf>, spec: ProviderSpec): T.Limits {
    var own := if conf.Some? then conf.value.limits else T.Limits(None, None);
    T.Limits(Nonzero(own.chars, spec.limits.chars), Nonzero(own.tokens, spec.limits.tokens))
  }

  /** `_context_limits`: zero never survives, so a limit that is there is positive. */
  function ContextLimits(conf: Option<ProviderConf>, spec: ProviderSpec, model: Option<string>): (r: T.Limits)
    ensures (r.chars.Some? ==> r.chars.value > 0) && (r.tokens.Some? ==> r.tokens.value > 0)
  {
    ConsultedAll(DeclaredLimits(conf, spec), Tables(conf, spec), model)
  }

  method FindContextLimits(conf: Option<ProviderConf>, spec: ProviderSpec, model: Option<string>) returns (r: T.Limits)
    ensures r == ContextLimits(conf, spec, model)
  {
    r := DeclaredLimits(conf, spec);
    var tables := Tables(conf, spec);
    for k := 0 to |tables|
      invariant r == ConsultedAll(DeclaredLimits(conf, spec), tables[..k], model)
    {
      assert tables[..k + 1][..k] == tables[..k];
      if Truthy(model) && model.value in tables[k].models {
        r := Filled(r, tables[k].models[model.value]);
      }
      r := Filled(r, tables[k].all);
    }
    assert tables[..|tables|] == tables;
  }

  // ---------- The whole resolution ----------

  /** First enabled credential, else the first. */
  function DefaultSlug(credentials: seq<Credential>): Option<string> {
    if exists c :: c in credentials && c.enabled then Some(FirstEnabled(credentials))
    else if credentials != [] then Some(credentials[0].slug)
    else None
  }

  function FirstEnabled(credentials: seq<Credential>): string
    requires exists c :: c in credentials && c.enabled
  {
    if credentials[0].enabled then credentials[0].slug else FirstEnabled(credentials[1..])
  }

  predicate UsesCandidates(s: Setup, args: CallArgs) {
    s.routeConfig.Some? && s.routeConfig.value.explicitCandidates && !Truthy(args.conf)
  }

  function Candidates(s: Setup): seq<RouteCandidate> {
    if s.routeConfig.Some? then s.routeConfig.value.candidates else []
  }

  /** `kwargs.get("credential_slug") or self.credential_slug`. */
  function SlugOption(s: Setup, args: CallArgs): Option<string> { Or(args.slug, s.managerSlug) }

  function ResolvedSlug(
    s: Setup, args: CallArgs, choice: Option<RouteCandidate>, conf: Option<ProviderConf>): Option<string>
  {
    OrElse(SlugOption(s, args),
           if choice.Some? then Some(choice.value.slug)
           else if conf.Some? then DefaultSlug(conf.value.credentials) else None)
  }

  function ResolvedModel(
    s: Setup, args: CallArgs, choice: Option<RouteCandidate>, conf: Option<ProviderConf>, specModel: Option<string>)
    : Option<string>
  {
    OrElse(args.model,
           OrElse(if choice.Some? then choice.value.model else None,
                  OrElse(if conf.Some? then Or(conf.value.modelId, conf.value.defaultModel) else None, specModel)))
  }

  function SizeOf(args: CallArgs, limits: T.Limits): T.SizeCheck {
    T.CheckSize(limits, T.Total(T.ToMessages(args.prompt, args.messages)), args.allowTruncation)
  }

  /** `ModelRouter.resolve` after candidate selection. */
  function ResolveWith(s: Setup, args: CallArgs, choice: Option<RouteCandidate>): Resolution {
    if s.routeConfig.None? then Unresolved(MissingModelConfig)
    else if Truthy(args.conf) && ConfOf(s, args.conf.value).None? then Unresolved(MissingModelConfig)
    else
      var confId := if choice.Some? then Some(choice.value.conf) else Or(args.conf, s.managerConf);
      var conf := if Truthy(confId) then ConfOf(s, confId.value) else None;
      var provider := if conf.Some? then conf.value.provider
                      else if s.managerProvider != "" then s.managerProvider else "mock";
      if Truthy(confId) && conf.None? then Unresolved(MissingModelConfig)
      else if Normalize(provider) !in s.specs then Unresolved(UnsupportedProvider)
      else
        var spec := s.specs[Normalize(provider)];
        var model := ResolvedModel(s, args, choice, conf, spec.defaultModel);
        var limits := ContextLimits(conf, spec, model);
        if SizeOf(args, limits).TooLong? then Unresolved(ContextLengthExceeded)
        else
          Resolved(choice, confId, ResolvedSlug(s, args, choice, conf), model, limits,
                   SizeOf(args, limits).TruncationRequested?)
  }

  /** The candidate a resolution starts from. */
  function Selected(
    s: Setup, args: CallArgs, excluded: set<H.CandidateKey>, cfg: H.Settings, h: seq<H.Event>, around: Surroundings)
    : Option<RouteCandidate>
  {
    if !UsesCandidates(s, args) then None
    else
      match Pick(s, excluded, cfg, h, around)
      case Some(i) => Some(Candidates(s)[i])
      case None => None
  }

  method Resolve(
    s: Setup, args: CallArgs, excluded: set<H.CandidateKey>, health: H.CandidateHealthRegistry, around: Surroundings)
    returns (r: Resolution)
    requires health.Valid()
    ensures r == ResolveWith(s, args, Selected(s, args, excluded, health.settings, health.history, around))
  {
    hide Normalize, ContextLimits, T.CheckSize, T.Total, Pick;
    if s.routeConfig.None? {
      return Unresolved(MissingModelConfig);
    }
    var confId := Or(args.conf, s.managerConf);
    var choice: Option<RouteCandidate> := None;
    if Truthy(args.conf) {
      if ConfOf(s, args.conf.value).None? {
        return Unresolved(MissingModelConfig);
      }
    } else if s.routeConfig.value.explicitCandidates {
      var picked := FirstEnabledCandidate(s, excluded, health, around);
      if picked.Some? {
        choice := Some(Candidates(s)[picked.value]);
        confId := Some(choice.value.conf);
      }
    }
    r := ResolveChosen(s, args, choice, confId);
  }

  method FindSlug(s: Setup, args: CallArgs, choice: Option<RouteCandidate>, conf: Option<ProviderConf>)
    returns (slug: Option<string>)
    ensures slug == ResolvedSlug(s, args, choice, conf)
  {
    slug := SlugOption(s, args);
    if slug.None? && choice.Some? {
      slug := Some(choice.value.slug);
    }
    if slug.None? && conf.Some? {
      slug := DefaultSlug(conf.value.credentials);
    }
  }

  method FindModel(
    s: Setup, args: CallArgs, choice: Option<RouteCandidate>, conf: Option<ProviderConf>, specModel: Option<string>)
    returns (model: Option<string>)
    ensures model == ResolvedModel(s, args, choice, conf, specModel)
  {
    model := args.model;
    if model.None? && choice.Some? {
      model := choice.value.model;
    }
    if model.None? && conf.Some? {
      model := Or(conf.value.modelId, conf.value.defaultModel);
    }
    if model.None? {
      model := specModel;
    }
  }

  /** The steps after the selection. */
  method ResolveChosen(s: Setup, args: CallArgs, choice: Option<RouteCandidate>, confId: Option<string>)
    returns (r: Resolution)
    requires s.routeConfig.Some? && (Truthy(args.conf) ==> ConfOf(s, args.conf.value).Some?)
    requires confId == if choice.Some? then Some(choice.value.conf) else Or(args.conf, s.managerConf)
    ensures r == ResolveWith(s, args, choice)
  {
    hide Normalize, ContextLimits, T.Total, ResolvedSlug, ResolvedModel;
    var conf: Option<ProviderConf> := None;
    if Truthy(confId) {
      conf := ConfOf(s, confId.value);
    }
    var provider := s.managerProvider;
    if conf.Some? {
      provider := conf.value.provider;
    } else if provider == "" {
      provider := "mock";
    }
    if Truthy(confId) && conf.None? {
      return Unresolved(MissingModelConfig);
    }
    if Normalize(provider) !in s.specs {
      return Unresolved(UnsupportedProvider);
    }
    var spec := s.specs[Normalize(provider)];
    var slug := FindSlug(s, args, choice, conf);
    var model := FindModel(s, args, choice, conf, spec.defaultModel);
    var limits := FindContextLimits(conf, spec, model);
    var chars := T.Total(T.ToMessages(args.prompt, args.messages));
    var tokens := T.Tokens(chars);
    var over := (limits.chars.Some? && chars > limits.chars.value)
                || (limits.tokens.Some? && tokens > limits.tokens.value);
    if over && !args.allowTruncation {
      return Unresolved(ContextLengthExceeded);
    }
    r := Resolved(choice, confId, slug, model, limits, over);
  }

  /** The selected candidate is configured, enabled, and not excluded. */
  lemma SelectedIsEnabled(
    s: Setup, args: CallArgs, excluded: set<H.CandidateKey>, cfg: H.Settings, h: seq<H.Event>, around: Surroundings)
    ensures var c := Selected(s, args, excluded, cfg, h, around);
            c.Some? ==> UsesCandidates(s, args) && c.value in Candidates(s) && Enabled(s, c.value, excluded)
  {
    var picked := Pick(s, excluded, cfg, h, around);
    if UsesCandidates(s, args) && picked.Some? {
      FlagsAt(s, excluded, cfg, h, around, |Candidates(s)|, picked.value);
    }
  }

  // ---------- What the selection amounts to ----------

  /** Candidate `item`, met at the clock reading `now` and cooling down by
      configuration or not, may be selected. */
  ghost predicate Usable(
    s: Setup, item: RouteCandidate, excluded: set<H.CandidateKey>, cfg: H.Settings, h: seq<H.Event>,
    now: real, cooling: bool)
  {
    var id := Normalize(item.conf);
    && item.enabled && id in s.confs && s.confs[id].enabled && !cooling
    && var model := if item.model.Some? && item.model.value != "" then item.model
                    else if s.confs[id].modelId.Some? && s.confs[id].modelId.value != "" then s.confs[id].modelId
                    else s.confs[id].defaultModel;
       var text := if model.Some? then Strip(model.value) else "";
       var slug := if item.slug != "" then Normalize(item.slug) else "default";
       && H.CandidateKey(Normalize(s.route), id, slug, text) !in excluded
       && H.Available(cfg, h, H.Candidate(s.route, item.conf, Some(item.slug), model), now)
  }

  lemma EligibleIffUsable(
    s: Setup, excluded: set<H.CandidateKey>, cfg: H.Settings, h: seq<H.Event>, around: Surroundings, i: nat)
    requires i < |Candidates(s)|
    ensures Eligible(s, excluded, cfg, h, around, i)
       <==> Usable(s, Candidates(s)[i], excluded, cfg, h, around.now(i), around.configuredCooldown(i))
  {
    hide H.Available, Normalize, Strip;
    H.DefaultIsPlain();
  }

  /** The number of a priority or weight left out is zero. */
  function Given(n: Option<int>): int { if n.Some? then n.value else 0 }

  /** `b` is no better than `a`: its priority number is higher, or the same with a
      lower weight, or both the same and its configuration named no earlier. */
  predicate NoBetter(a: RouteCandidate, b: RouteCandidate) {
    var (p, q, v, w) := (Given(a.priority), Given(b.priority), Given(a.weight), Given(b.weight));
    p < q || (p == q && v > w) || (p == q && v == w && (a.conf == b.conf || TextBefore(a.conf, b.conf)))
  }

  /** The selection takes a usable candidate than which no usable one is better, the
      first of equals; it takes none exactly when none is usable, or the call names
      its configuration, or the route has no explicit candidates. */
  lemma SelectionIs(
    s: Setup, args: CallArgs, excluded: set<H.CandidateKey>, cfg: H.Settings, h: seq<H.Event>, around: Surroundings)
    ensures var items := if s.routeConfig.Some? then s.routeConfig.value.candidates else [];
            var usable := (i: nat) requires i < |items| =>
              Usable(s, items[i], excluded, cfg, h, around.now(i), around.configuredCooldown(i));
            var open := s.routeConfig.Some? && s.routeConfig.value.explicitCandidates
                        && (args.conf.None? || args.conf.value == "");
            match Selected(s, args, excluded, cfg, h, around)
            case None => open ==> forall i: nat | i < |items| :: !usable(i)
            case Some(item) =>
              open && exists i: nat | i < |items| ::
                && item == items[i] && usable(i)
                && (forall j: nat | j < |items| && usable(j) :: NoBetter(item, items[j]))
                && (forall j: nat | j < i && usable(j) :: !NoBetter(items[j], item))
  {
    hide Usable, Eligible, NoBetter, Before;
    forall i: nat | i < |Candidates(s)|
      ensures Eligible(s, excluded, cfg, h, around, i)
         <==> Usable(s, Candidates(s)[i], excluded, cfg, h, around.now(i), around.configuredCooldown(i))
    {
      EligibleIffUsable(s, excluded, cfg, h, around, i);
    }
    AllFlagsAt(s, excluded, cfg, h, around);
    var picked := Pick(s, excluded, cfg, h, around);
    if picked.Some? {
      forall a, b ensures NoBetter(a, b) <==> !Before(b, a) { NoBetterMeans(a, b); }
    }
  }

  lemma NoBetterMeans(a: RouteCandidate, b: RouteCandidate)
    ensures NoBetter(a, b) <==> !Before(b, a)
  {
    TextTotal(a.conf, b.conf);
    TextOrder(a.conf, b.conf, a.conf);
    TextOrder(b.conf, a.conf, b.conf);
  }

  // ---------- What the resolution names ----------

  /** The slug of the first enabled credential, or of the first when none is. */
  predicate IsDefaultSlug(credentials: seq<Credential>, slug: Option<string>) {
    if slug.None? then credentials == []
    else
      exists i | 0 <= i < |credentials| ::
        credentials[i].slug == slug.value
        && if credentials[i].enabled then forall j | 0 <= j < i :: !credentials[j].enabled
           else i == 0 && forall c | c in credentials :: !c.enabled
  }

  lemma {:induction false} FirstEnabledIs(credentials: seq<Credential>) returns (i: nat)
    requires exists c :: c in credentials && c.enabled
    ensures i < |credentials| && credentials[i].enabled && credentials[i].slug == FirstEnabled(credentials)
    ensures forall j | 0 <= j < i :: !credentials[j].enabled
  {
    i := 0;
    if !credentials[0].enabled {
      var rest := credentials[1..];
      SomeLater(credentials);
      var k := FirstEnabledIs(rest);
      i := k + 1;
      forall j | 0 <= j < i ensures !credentials[j].enabled {
        if j > 0 { assert credentials[j] == rest[j - 1]; }
      }
    }
  }

  lemma SomeLater(credentials: seq<Credential>)
    requires (exists c :: c in credentials && c.enabled) && !credentials[0].enabled
    ensures exists c :: c in credentials[1..] && c.enabled
  {
    var c :| c in credentials && c.enabled;
    assert credentials == [credentials[0]] + credentials[1..];
  }

  lemma DefaultSlugIs(credentials: seq<Credential>)
    ensures IsDefaultSlug(credentials, DefaultSlug(credentials))
  {
    hide FirstEnabled;
    if exists c :: c in credentials && c.enabled { var i := FirstEnabledIs(credentials); }
  }

  /** First positive number given. */
  function FirstPositive(numbers: seq<Option<int>>): (r: Option<nat>)
    ensures r.Some? ==> r.value > 0
  {
    if numbers == [] then None
    else if numbers[0].Some? && numbers[0].value > 0 then Some(numbers[0].value)
    else FirstPositive(numbers[1..])
  }

  /** One kind of limit, characters or tokens, as each place gives it. */
  function Declared(l: T.Limits, chars: bool): Option<int> { if chars then l.chars else l.tokens }

  function Noted(l: RawLimits, chars: bool): Option<int> { if chars then l.chars else l.tokens }

  /** What metadata notes: for the model, then for all. */
  function NotedIn(t: LimitTable, model: Option<string>, chars: bool): seq<Option<int>> {
    [if model.Some? && model.value != "" && model.value in t.models then Noted(t.models[model.value], chars) else None,
     Noted(t.all, chars)]
  }

  /** Where a limit is looked for: declared by the configuration and the provider, then
      in the metadata of the configuration and of the provider. */
  function LimitsGiven(conf: Option<ProviderConf>, spec: ProviderSpec, model: Option<string>, chars: bool)
    : seq<Option<int>>
  {
    if conf.Some? then
      [Declared(conf.value.limits, chars), Declared(spec.limits, chars)]
      + NotedIn(conf.value.table, model, chars) + NotedIn(spec.table, model, chars)
    else [Declared(spec.limits, chars)] + NotedIn(spec.table, model, chars)
  }

  lemma {:induction false} FirstPositiveSnoc(numbers: seq<Option<int>>, x: Option<int>)
    ensures FirstPositive(numbers + [x])
         == if FirstPositive(numbers).Some? then FirstPositive(numbers) else FirstPositive([x])
  {
    if numbers == [] {
      assert [] + [x] == [x];
    } else {
      FirstPositiveSnoc(numbers[1..], x);
      assert (numbers + [x])[1..] == numbers[1..] + [x];
    }
  }

  /** What has been found so far is the first positive number, zero standing for none. */
  predicate Found(a: Option<nat>, numbers: seq<Option<int>>) {
    (if a == Some(0) then None else a) == FirstPositive(numbers)
  }

  lemma FoundFurther(a: Option<nat>, numbers: seq<Option<int>>, x: Option<int>)
    requires Found(a, numbers)
    ensures Nonzero(a, Positive(x)) == FirstPositive(numbers + [x])
    ensures x.None? ==> FirstPositive(numbers + [x]) == FirstPositive(numbers)
  {
    FirstPositiveSnoc(numbers, x);
    assert [x][1..] == [];
  }

  lemma FoundInTable(found: T.Limits, t: LimitTable, model: Option<string>, cs: seq<Option<int>>, ts: seq<Option<int>>)
    requires Found(found.chars, cs) && Found(found.tokens, ts)
    ensures var r := Consulted(found, t, model);
            && r.chars == FirstPositive(cs + NotedIn(t, model, true))
            && r.tokens == FirstPositive(ts + NotedIn(t, model, false))
  {
    hide FirstPositive;
    var (c, d) := (NotedIn(t, model, true), NotedIn(t, model, false));
    FoundFurther(found.chars, cs, c[0]);
    FoundFurther(found.tokens, ts, d[0]);
    var named := model.Some? && model.value != "" && model.value in t.models;
    var mid := if named then Filled(found, t.models[model.value]) else found;
    FoundFurther(mid.chars, cs + [c[0]], c[1]);
    FoundFurther(mid.tokens, ts + [d[0]], d[1]);
    assert cs + c == cs + [c[0]] + [c[1]] && ts + d == ts + [d[0]] + [d[1]];
  }

  lemma FoundDeclared(conf: Option<ProviderConf>, spec: ProviderSpec, chars: bool)
    ensures var own := if conf.Some? then [Declared(conf.value.limits, chars)] else [];
            Found(if chars then DeclaredLimits(conf, spec).chars else DeclaredLimits(conf, spec).tokens,
                  own + [Declared(spec.limits, chars)])
  {
    var x := Declared(spec.limits, chars);
    assert [x][1..] == [] && [] + [x] == [x];
    if conf.Some? { FirstPositiveSnoc([Declared(conf.value.limits, chars)], x); }
  }

  lemma LimitsOfConf(conf: ProviderConf, spec: ProviderSpec, model: Option<string>)
    ensures var r := ContextLimits(Some(conf), spec, model);
            && r.chars == FirstPositive(LimitsGiven(Some(conf), spec, model, true))
            && r.tokens == FirstPositive(LimitsGiven(Some(conf), spec, model, false))
  {
    hide NotedIn, Consulted, DeclaredLimits, Declared;
    FoundDeclared(Some(conf), spec, true);
    FoundDeclared(Some(conf), spec, false);
    var (start, table, last) := (DeclaredLimits(Some(conf), spec), conf.table, spec.table);
    var cs := [Declared(conf.limits, true)] + [Declared(spec.limits, true)];
    var ds := [Declared(conf.limits, false)] + [Declared(spec.limits, false)];
    var (cs', ds') := (cs + NotedIn(table, model, true), ds + NotedIn(table, model, false));
    FoundInTable(start, table, model, cs, ds);
    FoundInTable(Consulted(start, table, model), last, model, cs', ds');
    assert [table, last][..1] == [table] && [table][..0] == [] && Tables(Some(conf), spec) == [table, last];
    assert ConsultedAll(start, [table], model) == Consulted(start, table, model);
    assert LimitsGiven(Some(conf), spec, model, true) == cs' + NotedIn(last, model, true);
    assert LimitsGiven(Some(conf), spec, model, false) == ds' + NotedIn(last, model, false);
  }

  lemma LimitsOfSpec(spec: ProviderSpec, model: Option<string>)
    ensures var r := ContextLimits(None, spec, model);
            && r.chars == FirstPositive(LimitsGiven(None, spec, model, true))
            && r.tokens == FirstPositive(LimitsGiven(None, spec, model, false))
  {
    hide NotedIn, Consulted, DeclaredLimits, Declared;
    FoundDeclared(None, spec, true);
    FoundDeclared(None, spec, false);
    var (c, d) := ([Declared(spec.limits, true)], [Declared(spec.limits, false)]);
    assert [] + c == c && [] + d == d;
    FoundInTable(DeclaredLimits(None, spec), spec.table, model, c, d);
    assert Tables(None, spec) == [spec.table] && [spec.table][..0] == [];
    assert ConsultedAll(DeclaredLimits(None, spec), Tables(None, spec), model)
        == Consulted(DeclaredLimits(None, spec), spec.table, model);
    assert LimitsGiven(None, spec, model, true) == c + NotedIn(spec.table, model, true);
    assert LimitsGiven(None, spec, model, false) == d + NotedIn(spec.table, model, false);
  }

  /** A limit is the first positive number given for it. */
  lemma LimitsAre(conf: Option<ProviderConf>, spec: ProviderSpec, model: Option<string>)
    ensures var r := ContextLimits(conf, spec, model);
            && r.chars == FirstPositive(LimitsGiven(conf, spec, model, true))
            && r.tokens == FirstPositive(LimitsGiven(conf, spec, model, false))
  {
    match conf
    case Some(own) => LimitsOfConf(own, spec, model);
    case None => LimitsOfSpec(spec, model);
  }

  /** What a resolution names: the configuration of the candidate, the call or the
      manager; the slug of the call, the manager, the candidate or the configuration;
      the model of the call, the candidate, the configuration or the provider. */
  lemma ResolutionNames(s: Setup, args: CallArgs, choice: Option<RouteCandidate>)
    requires ResolveWith(s, args, choice).Resolved?
    ensures var r := ResolveWith(s, args, choice);
            var asked := args.conf.Some? && args.conf.value != "";
            && r.conf == (if choice.Some? then Some(choice.value.conf) else if asked then args.conf else s.managerConf)
            && var named := r.conf.Some? && r.conf.value != "";
               && (named ==> Normalize(r.conf.value) in s.confs)
               && var conf := if named then Some(s.confs[Normalize(r.conf.value)]) else None;
                  var provider := if conf.Some? then conf.value.provider
                                  else if s.managerProvider == "" then "mock" else s.managerProvider;
                  && Normalize(provider) in s.specs
                  && (if args.slug.Some? && args.slug.value != "" then r.slug == args.slug
                      else if s.managerSlug.Some? then r.slug == s.managerSlug
                      else if choice.Some? then r.slug == Some(choice.value.slug)
                      else if conf.Some? then IsDefaultSlug(conf.value.credentials, r.slug)
                      else r.slug == None)
                  && r.model == (if args.model.Some? then args.model
                                 else if choice.Some? && choice.value.model.Some? then choice.value.model
                                 else if conf.Some? && conf.value.modelId.Some? && conf.value.modelId.value != ""
                                 then conf.value.modelId
                                 else if conf.Some? && conf.value.defaultModel.Some? then conf.value.defaultModel
                                 else s.specs[Normalize(provider)].defaultModel)
                  && r.limits == ContextLimits(conf, s.specs[Normalize(provider)], r.model)
  {
    hide Normalize, ContextLimits, T.CheckSize, T.Total, DefaultSlug, IsDefaultSlug;
    forall credentials ensures IsDefaultSlug(credentials, DefaultSlug(credentials)) { DefaultSlugIs(credentials); }
  }

  // ---------- The two keys of a candidate ----------

  /** `_candidate_key_for_resolution`. */
  function KeyOf(s: Setup, r: Resolution): Option<H.CandidateKey> {
    if r.Unresolved? || r.choice.None? || r.conf.None? then None
    else Some(H.MakeCandidateKey(H.Candidate(s.route, r.conf.value, r.slug, r.model)))
  }

  function SpecModel(s: Setup, conf: ProviderConf): Option<string> {
    var key := Normalize(conf.provider);
    if key in s.specs then s.specs[key].defaultModel else None
  }

  /** The key a candidate is excluded under once it has been resolved. */
  function ResolvedKey(s: Setup, args: CallArgs, item: RouteCandidate, conf: ProviderConf): H.CandidateKey {
    var specModel := SpecModel(s, conf);
    H.MakeCandidateKey(H.Candidate(s.route, item.conf, ResolvedSlug(s, args, Some(item), Some(conf)),
                                   ResolvedModel(s, args, Some(item), Some(conf), specModel)))
  }

  /** A candidate whose two keys agree. */
  predicate Aligned(s: Setup, args: CallArgs, item: RouteCandidate) {
    ConfOf(s, item.conf).Some? ==>
      FilterKey(s, item, ConfOf(s, item.conf).value) == ResolvedKey(s, args, item, ConfOf(s, item.conf).value)
  }

  /** A resolution keeps its choice, and its limits are those it was checked against. */
  lemma ResolutionShape(s: Setup, args: CallArgs, choice: Option<RouteCandidate>)
    ensures var r := ResolveWith(s, args, choice);
            r.Resolved? ==>
              && s.routeConfig.Some? && r.choice == choice
              && (r.limits.chars.Some? ==> r.limits.chars.value > 0)
              && (r.limits.tokens.Some? ==> r.limits.tokens.value > 0)
              && SizeOf(args, r.limits) == if r.truncate then T.TruncationRequested else T.Fits
  {
    hide Normalize, ConsultedAll, T.Total;
  }

  lemma KeyOfChosen(s: Setup, args: CallArgs, item: RouteCandidate)
    requires s.routeConfig.Some? && !Truthy(args.conf) && item.conf != "" && ConfOf(s, item.conf).Some?
    ensures var r := ResolveWith(s, args, Some(item));
            r.Resolved? ==> KeyOf(s, r) == Some(ResolvedKey(s, args, item, ConfOf(s, item.conf).value))
  {
    hide Normalize, ContextLimits, SizeOf;
  }

  function ModelText(m: Option<string>): string { if m.Some? then Strip(m.value) else "" }

  /** When the keys agree, for a call that names neither slug nor model: the
      manager's slug must be absent or mean the candidate's own, and without a
      model of its own or its provider's the provider default must be blank. */
  lemma AlignedIff(s: Setup, args: CallArgs, item: RouteCandidate)
    requires args.slug.None? && args.model.None? && ConfOf(s, item.conf).Some?
    ensures var conf := ConfOf(s, item.conf).value;
            Aligned(s, args, item) <==>
              && (s.managerSlug.None?
                  || Normalize(H.SlugText(s.managerSlug)) == Normalize(H.SlugText(Some(item.slug))))
              && ModelText(FilterModel(item, conf))
                 == ModelText(OrElse(item.model, OrElse(Or(conf.modelId, conf.defaultModel), SpecModel(s, conf))))
  {
  }

  /** The candidate a round's outcome is booked on. */
  function Booked(s: Setup, args: CallArgs, item: RouteCandidate, conf: ProviderConf): H.Candidate {
    H.Reread(ResolvedKey(s, args, item, conf)).(route := s.route)
  }

  /** The entry the health filter reads for it. */
  predicate BookedWhereRead(s: Setup, args: CallArgs, item: RouteCandidate, conf: ProviderConf) {
    H.KeyFor(H.CandidateScope, Booked(s, args, item, conf))
    == H.KeyFor(H.CandidateScope, FilterCandidate(s, item, conf))
  }

  /** A round is booked on the entry the filter reads exactly when both name the
      same model and the slug it was resolved with, the default if that is blank, is
      the candidate's own. With agreeing keys that is: unless the slug is blank. */
  lemma BookedWhereReadIff(s: Setup, args: CallArgs, item: RouteCandidate, conf: ProviderConf)
    ensures var (used, own) := (H.SlugText(ResolvedSlug(s, args, Some(item), Some(conf))), H.SlugText(Some(item.slug)));
            BookedWhereRead(s, args, item, conf) <==>
              && Normalize(own) == (if AllSpace(used) then H.DEFAULT_SLUG else Normalize(used))
              && ModelText(FilterModel(item, conf))
                 == ModelText(ResolvedModel(s, args, Some(item), Some(conf), SpecModel(s, conf)))
    ensures FilterKey(s, item, conf) == ResolvedKey(s, args, item, conf) ==>
              (BookedWhereRead(s, args, item, conf) <==> !AllSpace(H.SlugText(Some(item.slug))))
  {
    hide ResolvedSlug, ResolvedModel, FilterModel, SpecModel, Normalize, Strip;
    var key := ResolvedKey(s, args, item, conf);
    NormalizeTwice(s.route);
    NormalizeTwice(item.conf);
    RereadSlug(ResolvedSlug(s, args, Some(item), Some(conf)));
    RereadSlug(Some(item.slug));
  }

  /** A blank slug is booked under the default. */
  lemma RereadSlug(slug: Option<string>)
    ensures var text := H.SlugText(slug);
            Normalize(H.SlugText(Some(Normalize(text)))) == if AllSpace(text) then H.DEFAULT_SLUG else Normalize(text)
    ensures AllSpace(H.SlugText(slug)) <==> Normalize(H.SlugText(slug)) == ""
  {
    NormalizeTwice(H.SlugText(slug));
    H.DefaultIsPlain();
    hide Normalize;
  }

  /** Otherwise the failures that strike a candidate never count against it: for the
      filter it is exactly as available as before. */
  lemma MisbookedGoesUnseen(
    s: Setup, args: CallArgs, item: RouteCandidate, conf: ProviderConf, cfg: H.Settings, h: seq<H.Event>,
    code: ErrorCode, at: real, now: real)
    requires now >= 0.0 && H.BlamedScope(code).CandidateScope? && !BookedWhereRead(s, args, item, conf)
    ensures var (c, e) := (FilterCandidate(s, item, conf), H.Failed(Booked(s, args, item, conf), code, at));
            H.Available(cfg, h + [e], c, now) <==> H.Available(cfg, h, c, now)
  {
    hide Booked, FilterCandidate, H.Available, H.MakeCandidateKey;
    H.FailureIsConfined(cfg, h, H.Failed(Booked(s, args, item, conf), code, at), FilterCandidate(s, item, conf), now);
  }

  /** Once its resolved key is excluded, the chosen candidate passes the key filter
      again exactly when its keys disagree. */
  lemma EnabledAgain(s: Setup, args: CallArgs, excluded: set<H.CandidateKey>, item: RouteCandidate)
    requires Enabled(s, item, excluded)
    ensures Enabled(s, item, excluded + {ResolvedKey(s, args, item, ConfOf(s, item.conf).value)})
       <==> !Aligned(s, args, item)
  {
    hide H.MakeCandidateKey;
  }

  /** After a candidate has failed and its resolved key is excluded, at a later
      time and with a longer history, the router picks it again exactly when
      its keys disagree and it passes the health filter; provided no other
      candidate has come back meanwhile. */
  lemma ReselectedIffMisaligned(
    s: Setup, args: CallArgs, excluded: set<H.CandidateKey>, cfg: H.Settings, i: nat,
    h: seq<H.Event>, around: Surroundings, later: seq<H.Event>, aroundLater: Surroundings)
    requires Pick(s, excluded, cfg, h, around) == Some(i)
    requires var item := Candidates(s)[i];
             ConfOf(s, item.conf).Some?
             && var more := excluded + {ResolvedKey(s, args, item, ConfOf(s, item.conf).value)};
                forall j | 0 <= j < |Candidates(s)| && j != i && Eligible(s, more, cfg, later, aroundLater, j) ::
                  Eligible(s, excluded, cfg, h, around, j)
    ensures var item := Candidates(s)[i];
            var more := excluded + {ResolvedKey(s, args, item, ConfOf(s, item.conf).value)};
            Pick(s, more, cfg, later, aroundLater) == Some(i)
            <==> !Aligned(s, args, item) && Healthy(s, cfg, later, aroundLater, i)
  {
    hide H.MakeCandidateKey, Healthy, Enabled, Aligned;
    var item := Candidates(s)[i];
    var more := excluded + {ResolvedKey(s, args, item, ConfOf(s, item.conf).value)};
    var n := |Candidates(s)|;
    var (eligible, again) := (Flags(s, excluded, cfg, h, around, n), Flags(s, more, cfg, later, aroundLater, n));
    AllFlagsAt(s, excluded, cfg, h, around);
    AllFlagsAt(s, more, cfg, later, aroundLater);
    assert IsChoice(Candidates(s), eligible, i);
    EnabledAgain(s, args, excluded, item);
    if again[i] { ChoiceStable(Candidates(s), eligible, again, i); }
  }

  lemma AllFlagsAt(s: Setup, excluded: set<H.CandidateKey>, cfg: H.Settings, h: seq<H.Event>, around: Surroundings)
    ensures var n := |Candidates(s)|;
            forall i | 0 <= i < n ::
              Flags(s, excluded, cfg, h, around, n)[i] <==> Eligible(s, excluded, cfg, h, around, i)
  {
    var n := |Candidates(s)|;
    forall i | 0 <= i < n
      ensures Flags(s, excluded, cfg, h, around, n)[i] <==> Eligible(s, excluded, cfg, h, around, i)
    {
      FlagsAt(s, excluded, cfg, h, around, n, i);
    }
  }
}
