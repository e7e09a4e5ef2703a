/** Candidate keys and the health registry: a circuit breaker over candidate,
    credential and model scopes. */
module CandidateHealth {
  import opened Common
  import opened PyText
  import opened ModelErrors

  // ---------- Keys ----------

  /** A candidate as callers name it, before normalisation. */
  datatype Candidate = Candidate(route: string, conf: string, slug: Option<string>, model: Option<string>)

  datatype CandidateKey = CandidateKey(route: string, conf: string, slug: string, model: string)

  datatype Scope = CandidateScope | CredentialScope | ModelScope

  datatype HealthKey = HealthKey(scope: Scope, key: CandidateKey)

  const DEFAULT_SLUG := "default"

  /** `str(credential_slug or "default")`. */
  function SlugText(slug: Option<string>): string {
    if slug.Some? && slug.value != "" then slug.value else DEFAULT_SLUG
  }

  function MakeCandidateKey(c: Candidate): CandidateKey {
    CandidateKey(Normalize(c.route), Normalize(c.conf), Normalize(SlugText(c.slug)),
                 if c.model.Some? then Strip(c.model.value) else "")
  }

  /** A key read back as a candidate, as `_record_candidate_result` does. */
  function Reread(k: CandidateKey): Candidate {
    Candidate(k.route, k.conf, Some(k.slug), Some(k.model))
  }

  lemma DefaultIsPlain()
    ensures Normalize(DEFAULT_SLUG) == DEFAULT_SLUG && !AllSpace(DEFAULT_SLUG)
  {
    assert !IsSpace(DEFAULT_SLUG[0]);
    assert Strip(DEFAULT_SLUG) == DEFAULT_SLUG;
    forall i | 0 <= i < |DEFAULT_SLUG| ensures LowerChar(DEFAULT_SLUG[i]) == DEFAULT_SLUG[i] {
    }
  }

  lemma SlugTwice(slug: Option<string>)
    ensures var n := Normalize(SlugText(slug)); Normalize(SlugText(Some(n))) == n <==> !AllSpace(SlugText(slug))
  {
    var (text, n) := (SlugText(slug), Normalize(SlugText(slug)));
    NormalizeTwice(text);
    if n == "" {
      assert SlugText(Some(n)) == DEFAULT_SLUG;
      DefaultIsPlain();
    }
  }

  /** Keying a key again gives the same key, except exactly for a blank slug,
      which reads back as the default one. */
  lemma KeyingTwice(c: Candidate)
    ensures MakeCandidateKey(Reread(MakeCandidateKey(c))) == MakeCandidateKey(c)
       <==> !AllSpace(SlugText(c.slug))
  {
    NormalizeTwice(c.route);
    NormalizeTwice(c.conf);
    SlugTwice(c.slug);
  }

  function KeyFor(scope: Scope, c: Candidate): (k: HealthKey)
    ensures k.scope == scope
  {
    match scope
    case CandidateScope => HealthKey(scope, MakeCandidateKey(c))
    case CredentialScope => HealthKey(scope, MakeCandidateKey(c.(model := None)))
    case ModelScope => HealthKey(scope, MakeCandidateKey(c.(slug := None)))
  }

  function RelatedKeys(c: Candidate): seq<HealthKey> {
    [KeyFor(CandidateScope, c), KeyFor(CredentialScope, c), KeyFor(ModelScope, c)]
  }

  /** The scope a failure is booked under. */
  function BlamedScope(code: ErrorCode): Scope {
    if BlamesCredential(code) then CredentialScope
    else if code.ModelNotFound? then ModelScope
    else CandidateScope
  }

  // ---------- The registry ----------

  datatype HealthState = HealthState(
    failures: nat, cooldownUntil: real, circuitOpenUntil: real, lastError: Option<ErrorCode>, successes: nat)

  const FRESH := HealthState(0, 0.0, 0.0, None, 0)

  predicate Active(s: HealthState, now: real) {
    s.cooldownUntil > now || s.circuitOpenUntil > now
  }

  datatype Settings = Settings(
    credentialCooldown: real, modelCooldown: real, candidateCooldown: real, threshold: int, openSeconds: real)

  function Max(a: real, b: real): real { if a < b then b else a }

  function AtLeastZero(x: real): real { if x >= 0.0 then x else 0.0 }

  function Clamped(s: Settings): Settings {
    Settings(Max(s.credentialCooldown, 0.0), Max(s.modelCooldown, 0.0), Max(s.candidateCooldown, 0.0),
             if s.threshold < 1 then 1 else s.threshold, Max(s.openSeconds, 0.0))
  }

  /** What happened to the registry. */
  datatype Event = Failed(c: Candidate, code: ErrorCode, at: real) | Succeeded(c: Candidate)

  class CandidateHealthRegistry {
    const settings: Settings
    var states: map<HealthKey, HealthState>
    ghost var history: seq<Event>

    ghost predicate Valid()
      reads this
    {
      Mirrors(settings, history, states)
    }

    constructor (requested: Settings)
      ensures Valid() && history == []
      ensures settings.threshold == if requested.threshold >= 1 then requested.threshold else 1
      ensures settings.credentialCooldown == AtLeastZero(requested.credentialCooldown)
      ensures settings.modelCooldown == AtLeastZero(requested.modelCooldown)
      ensures settings.candidateCooldown == AtLeastZero(requested.candidateCooldown)
      ensures settings.openSeconds == AtLeastZero(requested.openSeconds)
    {
      settings := Clamped(requested);
      states := map[];
      history := [];
    }

    method IsAvailable(c: Candidate, configuredCooldown: bool, now: real) returns (ok: bool)
      requires Valid()
      ensures ok <==> !configuredCooldown && Available(settings, history, c, now)
    {
      if configuredCooldown {
        return false;
      }
      var active := AnyActiveNow(RelatedKeys(c), now);
      return !active;
    }

    method AnyActiveNow(keys: seq<HealthKey>, now: real) returns (active: bool)
      requires Valid()
      ensures active <==> AnyActive(settings, history, keys, now)
    {
      for i := 0 to |keys|
        invariant !AnyActive(settings, history, keys[..i], now)
      {
        assert keys[..i + 1] == keys[..i] + [keys[i]];
        var state := Get(states, keys[i], FRESH);
        ReadsStanding(settings, history, states, keys[i]);
        if Active(state, now) {
          AnyActiveFrom(settings, history, keys, now, i);
          return true;
        }
      }
      assert keys[..|keys|] == keys;
      return false;
    }

    method RecordFailure(c: Candidate, code: ErrorCode, now: real)
      requires Valid()
      modifies this
      ensures Valid() && history == old(history) + [Failed(c, code, now)]
    {
      ghost var event := Failed(c, code, now);
      if BlamesCredential(code) {
        Cooldown(KeyFor(CredentialScope, c), now + settings.credentialCooldown, code, event);
      } else if code.ModelNotFound? {
        Cooldown(KeyFor(ModelScope, c), now + settings.modelCooldown, code, event);
      } else {
        Strike(KeyFor(CandidateScope, c), now, code, event);
      }
    }

    /** The candidate branch of `record_failure`. */
    method Strike(key: HealthKey, now: real, code: ErrorCode, ghost event: Event)
      requires Valid()
      requires event.Failed? && event.code == code && event.at == now
      requires BlamedScope(code) == CandidateScope == key.scope && Hits(event, key)
      modifies this
      ensures Valid() && history == old(history) + [event]
    {
      var state := Get(states, key, FRESH);
      ReadsStanding(settings, history, states, key);
      state := state.(failures := state.failures + 1, lastError := Some(code));
      if Retryable(code) {
        state := state.(cooldownUntil := Max(state.cooldownUntil, now + settings.candidateCooldown));
      }
      if state.failures >= settings.threshold {
        state := state.(circuitOpenUntil := Max(state.circuitOpenUntil, now + settings.openSeconds));
      }
      Store(key, state, event);
    }

    method Cooldown(key: HealthKey, until: real, code: ErrorCode, ghost event: Event)
      requires Valid()
      requires event.Failed? && event.code == code && BlamedScope(code) == key.scope && key.scope != CandidateScope
      requires Hits(event, key) && until == event.at + CooldownOf(settings, key.scope)
      modifies this
      ensures Valid() && history == old(history) + [event]
    {
      var state := Get(states, key, FRESH);
      ReadsStanding(settings, history, states, key);
      PunishedBeyondCandidate(settings, state, event, key.scope);
      Store(key, state.(cooldownUntil := Max(state.cooldownUntil, until), lastError := Some(code)), event);
    }

    /** `self._states[key] = state`, booked as `event`. */
    method Store(key: HealthKey, state: HealthState, ghost event: Event)
      requires Valid()
      requires event.Failed? && Hits(event, key)
      requires state == Punished(settings, Standing(settings, history, key), event, key.scope)
      modifies this
      ensures Valid() && history == old(history) + [event]
    {
      BookFailure(settings, history, event, key, states);
      states := states[key := state];
      history := history + [event];
    }

    method RecordSuccess(c: Candidate)
      requires Valid()
      modifies this
      ensures Valid() && history == old(history) + [Succeeded(c)]
    {
      RelatedDistinct(c);
      Reset(RelatedKeys(c));
      BookSuccess(settings, history, c, old(states), states);
      history := history + [Succeeded(c)];
    }

    /** The loop of `record_success`: only existing entries are reset. */
    method Reset(keys: seq<HealthKey>)
      requires forall i, j | 0 <= i < j < |keys| :: keys[i] != keys[j]
      modifies this`states
      ensures AreReset(keys, old(states), states)
    {
      for i := 0 to |keys|
        invariant AreReset(keys[..i], old(states), states)
      {
        assert keys[..i + 1] == keys[..i] + [keys[i]];
        assert keys[i] !in keys[..i];
        assert Row(states, keys[i]) == Row(old(states), keys[i]);
        if keys[i] in states {
          var state := states[keys[i]];
          states := states[keys[i] := HealthState(0, 0.0, 0.0, None, state.successes + 1)];
        }
      }
      assert keys[..|keys|] == keys;
    }
  }

  // ---------- The table against the history ----------

  type Table = map<HealthKey, HealthState>

  function Row(states: Table, k: HealthKey): Option<HealthState> {
    if k in states then Some(states[k]) else None
  }

  function Get(states: Table, k: HealthKey, default: HealthState): HealthState {
    if k in states then states[k] else default
  }

  ghost predicate Mirrors(cfg: Settings, h: seq<Event>, states: Table) {
    forall k :: Row(states, k) == Entry(cfg, h, k)
  }

  ghost predicate AreReset(keys: seq<HealthKey>, before: Table, after: Table) {
    forall k :: Row(after, k) == if k in keys then Recovered(Row(before, k)) else Row(before, k)
  }

  lemma ReadsStanding(cfg: Settings, h: seq<Event>, states: Table, k: HealthKey)
    requires Mirrors(cfg, h, states)
    ensures Get(states, k, FRESH) == Standing(cfg, h, k)
  {
    assert Row(states, k) == Entry(cfg, h, k);
  }

  lemma BookFailure(cfg: Settings, h: seq<Event>, e: Event, key: HealthKey, states: Table)
    requires Mirrors(cfg, h, states) && e.Failed? && Hits(e, key)
    ensures Mirrors(cfg, h + [e], states[key := Punished(cfg, Standing(cfg, h, key), e, key.scope)])
  {
    var after := states[key := Punished(cfg, Standing(cfg, h, key), e, key.scope)];
    forall k ensures Row(after, k) == Entry(cfg, h + [e], k) {
      EntryStep(cfg, h, e, k);
      assert Row(states, k) == Entry(cfg, h, k);
    }
  }

  lemma BookSuccess(cfg: Settings, h: seq<Event>, c: Candidate, before: Table, after: Table)
    requires Mirrors(cfg, h, before) && AreReset(RelatedKeys(c), before, after)
    ensures Mirrors(cfg, h + [Succeeded(c)], after)
  {
    forall k ensures Row(after, k) == Entry(cfg, h + [Succeeded(c)], k) {
      EntryStep(cfg, h, Succeeded(c), k);
      assert Row(before, k) == Entry(cfg, h, k);
    }
  }

  lemma RelatedDistinct(c: Candidate)
    ensures var keys := RelatedKeys(c); forall i, j | 0 <= i < j < |keys| :: keys[i] != keys[j]
  {
    ThreeDistinct(KeyFor(CandidateScope, c), KeyFor(CredentialScope, c), KeyFor(ModelScope, c));
  }

  lemma ThreeDistinct(a: HealthKey, b: HealthKey, m: HealthKey)
    requires a.scope != b.scope && b.scope != m.scope && a.scope != m.scope
    ensures var keys := [a, b, m]; forall i, j | 0 <= i < j < |keys| :: keys[i] != keys[j]
  {
  }

  // ---------- What each key's entry is after a history ----------

  function CooldownOf(cfg: Settings, scope: Scope): real {
    match scope
    case CandidateScope => cfg.candidateCooldown
    case CredentialScope => cfg.credentialCooldown
    case ModelScope => cfg.modelCooldown
  }

  function Entry(cfg: Settings, h: seq<Event>, k: HealthKey): Option<HealthState> {
    if h == [] then None
    else
      var (e, before) := (h[|h| - 1], Entry(cfg, h[..|h| - 1], k));
      if ResetBy(e, k) then Recovered(before)
      else if Hits(e, k) then Some(Punished(cfg, if before.Some? then before.value else FRESH, e, k.scope))
      else before
  }

  lemma EntryStep(cfg: Settings, h: seq<Event>, e: Event, k: HealthKey)
    ensures Entry(cfg, h + [e], k)
         == if ResetBy(e, k) then Recovered(Entry(cfg, h, k))
            else if Hits(e, k) then Some(Punished(cfg, Standing(cfg, h, k), e, k.scope))
            else Entry(cfg, h, k)
  {
    assert (h + [e])[..|h|] == h;
  }

  function Recovered(s: Option<HealthState>): Option<HealthState> {
    if s.Some? then Some(HealthState(0, 0.0, 0.0, None, s.value.successes + 1)) else None
  }

  function Punished(cfg: Settings, s: HealthState, e: Event, scope: Scope): HealthState
    requires e.Failed?
  {
    var failures := if scope.CandidateScope? then s.failures + 1 else s.failures;
    HealthState(
      failures,
      if Cools(e) then Max(s.cooldownUntil, e.at + CooldownOf(cfg, scope)) else s.cooldownUntil,
      if scope.CandidateScope? && failures >= cfg.threshold then Max(s.circuitOpenUntil, e.at + cfg.openSeconds)
      else s.circuitOpenUntil,
      Some(e.code),
      s.successes)
  }

  lemma PunishedBeyondCandidate(cfg: Settings, s: HealthState, e: Event, scope: Scope)
    requires e.Failed? && BlamedScope(e.code) == scope != CandidateScope
    ensures Punished(cfg, s, e, scope)
         == s.(cooldownUntil := Max(s.cooldownUntil, e.at + CooldownOf(cfg, scope)), lastError := Some(e.code))
  {
  }

  function Standing(cfg: Settings, h: seq<Event>, k: HealthKey): HealthState {
    var e := Entry(cfg, h, k);
    if e.Some? then e.value else FRESH
  }

  predicate AnyActive(cfg: Settings, h: seq<Event>, keys: seq<HealthKey>, now: real) {
    keys != [] && (AnyActive(cfg, h, keys[..|keys| - 1], now) || Active(Standing(cfg, h, keys[|keys| - 1]), now))
  }

  lemma {:induction false} AnyActiveFrom(cfg: Settings, h: seq<Event>, keys: seq<HealthKey>, now: real, i: nat)
    requires i < |keys| && Active(Standing(cfg, h, keys[i]), now)
    ensures AnyActive(cfg, h, keys, now)
  {
    if i < |keys| - 1 { AnyActiveFrom(cfg, h, keys[..|keys| - 1], now, i); }
  }

  predicate Available(cfg: Settings, h: seq<Event>, c: Candidate, now: real) {
    !AnyActive(cfg, h, RelatedKeys(c), now)
  }

  // ---------- The same, from the history alone ----------

  predicate ResetBy(e: Event, k: HealthKey) { e.Succeeded? && k in RelatedKeys(e.c) }

  predicate Hits(e: Event, k: HealthKey) { e.Failed? && k == KeyFor(BlamedScope(e.code), e.c) }

  /** Candidate failures cool down only for retryable codes. */
  predicate Cools(e: Event) { e.Failed? && (BlamedScope(e.code) != CandidateScope || Retryable(e.code)) }

  /** Failures booked on `k` since the last success that resets it. */
  function Streak(h: seq<Event>, k: HealthKey): nat {
    if h == [] || ResetBy(h[|h| - 1], k) then 0
    else Streak(h[..|h| - 1], k) + if Hits(h[|h| - 1], k) then 1 else 0
  }

  /** Event `i` is a failure booked on `k`, and no later success resets it. */
  ghost predicate Stands(h: seq<Event>, k: HealthKey, i: nat) {
    i < |h| && Hits(h[i], k) && forall j | i < j < |h| :: !ResetBy(h[j], k)
  }

  ghost predicate CoolsAt(cfg: Settings, h: seq<Event>, k: HealthKey, now: real, i: nat) {
    Stands(h, k, i) && Cools(h[i]) && h[i].at + CooldownOf(cfg, k.scope) > now
  }

  ghost predicate OpensAt(cfg: Settings, h: seq<Event>, k: HealthKey, now: real, i: nat) {
    Stands(h, k, i) && Streak(h[..i + 1], k) >= cfg.threshold && h[i].at + cfg.openSeconds > now
  }

  /** Some standing failure's cooldown has not run out. */
  ghost predicate CoolingDown(cfg: Settings, h: seq<Event>, k: HealthKey, now: real) {
    exists i: nat :: CoolsAt(cfg, h, k, now, i)
  }

  /** Some standing failure brought the streak to the threshold, and its open
      window has not run out. */
  ghost predicate CircuitOpen(cfg: Settings, h: seq<Event>, k: HealthKey, now: real) {
    k.scope.CandidateScope? && exists i: nat :: OpensAt(cfg, h, k, now, i)
  }

  /** What an event adds to a history. */
  lemma StandsStep(h: seq<Event>, e: Event, k: HealthKey, i: nat)
    ensures Stands(h + [e], k, i) <==> if i == |h| then Hits(e, k) else !ResetBy(e, k) && Stands(h, k, i)
  {
    var h' := h + [e];
    assert forall j | 0 <= j < |h| :: h'[j] == h[j];
    assert h'[|h|] == e;
  }

  lemma OldWitness(cfg: Settings, h: seq<Event>, e: Event, k: HealthKey, now: real, i: nat)
    requires i < |h|
    ensures CoolsAt(cfg, h + [e], k, now, i) <==> !ResetBy(e, k) && CoolsAt(cfg, h, k, now, i)
    ensures OpensAt(cfg, h + [e], k, now, i) <==> !ResetBy(e, k) && OpensAt(cfg, h, k, now, i)
  {
    hide Stands, Streak, ResetBy, Hits;
    StandsStep(h, e, k, i);
    assert (h + [e])[i] == h[i] && (h + [e])[..i + 1] == h[..i + 1];
  }

  lemma StreakStep(h: seq<Event>, e: Event, k: HealthKey)
    ensures Streak(h + [e], k) == if ResetBy(e, k) then 0 else Streak(h, k) + if Hits(e, k) then 1 else 0
  {
    assert (h + [e])[..|h|] == h;
  }

  lemma NewWitness(cfg: Settings, h: seq<Event>, e: Event, k: HealthKey, now: real)
    ensures CoolsAt(cfg, h + [e], k, now, |h|) <==> Hits(e, k) && Cools(e) && e.at + CooldownOf(cfg, k.scope) > now
    ensures OpensAt(cfg, h + [e], k, now, |h|)
       <==> Hits(e, k) && Streak(h, k) + 1 >= cfg.threshold && e.at + cfg.openSeconds > now
  {
    StandsStep(h, e, k, |h|);
    StreakStep(h, e, k);
    assert (h + [e])[|h|] == e && (h + [e])[..|h| + 1] == h + [e];
  }

  lemma WitnessBelow(cfg: Settings, h: seq<Event>, k: HealthKey, now: real, i: nat)
    ensures CoolsAt(cfg, h, k, now, i) || OpensAt(cfg, h, k, now, i) ==> i < |h|
  {
    hide Streak, Hits, ResetBy;
  }

  lemma CoolingStep(cfg: Settings, h: seq<Event>, e: Event, k: HealthKey, now: real)
    ensures CoolingDown(cfg, h + [e], k, now)
       <==> !ResetBy(e, k)
            && (CoolingDown(cfg, h, k, now) || (Hits(e, k) && Cools(e) && e.at + CooldownOf(cfg, k.scope) > now))
  {
    hide Stands, Streak, RelatedKeys, KeyFor, Cools, CoolsAt, OpensAt, CooldownOf;
    NewWitness(cfg, h, e, k, now);
    if i: nat :| CoolsAt(cfg, h + [e], k, now, i) {
      WitnessBelow(cfg, h + [e], k, now, i);
      if i < |h| { OldWitness(cfg, h, e, k, now, i); }
    }
    if i: nat :| CoolsAt(cfg, h, k, now, i) {
      WitnessBelow(cfg, h, k, now, i);
      OldWitness(cfg, h, e, k, now, i);
    }
  }

  lemma CircuitStep(cfg: Settings, h: seq<Event>, e: Event, k: HealthKey, now: real)
    requires k.scope.CandidateScope?
    ensures CircuitOpen(cfg, h + [e], k, now)
       <==> !ResetBy(e, k)
            && (CircuitOpen(cfg, h, k, now)
                || (Hits(e, k) && Streak(h, k) + 1 >= cfg.threshold && e.at + cfg.openSeconds > now))
  {
    hide Stands, Streak, RelatedKeys, KeyFor, Cools, CoolsAt, OpensAt, CooldownOf;
    NewWitness(cfg, h, e, k, now);
    if i: nat :| OpensAt(cfg, h + [e], k, now, i) {
      WitnessBelow(cfg, h + [e], k, now, i);
      if i < |h| { OldWitness(cfg, h, e, k, now, i); }
    }
    if i: nat :| OpensAt(cfg, h, k, now, i) {
      WitnessBelow(cfg, h, k, now, i);
      OldWitness(cfg, h, e, k, now, i);
    }
  }

  /** An entry's fields say of the history what they should. */
  lemma {:induction false} EntryMeans(cfg: Settings, h: seq<Event>, k: HealthKey, now: real)
    requires now >= 0.0
    ensures var s := Standing(cfg, h, k);
            && (s.cooldownUntil > now <==> CoolingDown(cfg, h, k, now))
            && (s.circuitOpenUntil > now <==> CircuitOpen(cfg, h, k, now))
            && s.failures == if k.scope.CandidateScope? then Streak(h, k) else 0
  {
    if h != [] {
      var (before, e) := (h[..|h| - 1], h[|h| - 1]);
      assert h == before + [e];
      EntryMeans(cfg, before, k, now);
      EntryStep(cfg, before, e, k);
      CoolingStep(cfg, before, e, k, now);
      if k.scope.CandidateScope? { CircuitStep(cfg, before, e, k, now); }
    }
  }

  /** `k` stands in the way of its candidates at `now`, as the history tells it. */
  ghost predicate Barred(cfg: Settings, h: seq<Event>, k: HealthKey, now: real) {
    CoolingDown(cfg, h, k, now) || CircuitOpen(cfg, h, k, now)
  }

  /** The registry refines its history: a candidate is available exactly when
      no related key is cooling down or has an open circuit. */
  lemma AvailableMeans(cfg: Settings, h: seq<Event>, c: Candidate, now: real)
    requires now >= 0.0
    ensures Available(cfg, h, c, now) <==> forall k | k in RelatedKeys(c) :: !Barred(cfg, h, k, now)
  {
    SomeActive(cfg, h, RelatedKeys(c), now);
    forall k | k in RelatedKeys(c) ensures Active(Standing(cfg, h, k), now) <==> Barred(cfg, h, k, now) {
      ActiveMeans(cfg, h, k, now);
    }
  }

  lemma {:induction false} SomeActive(cfg: Settings, h: seq<Event>, keys: seq<HealthKey>, now: real)
    ensures AnyActive(cfg, h, keys, now) <==> exists k | k in keys :: Active(Standing(cfg, h, k), now)
  {
    if keys != [] {
      hide Active, Standing;
      var (rest, k) := (keys[..|keys| - 1], keys[|keys| - 1]);
      SomeActive(cfg, h, rest, now);
      assert keys == rest + [k];
    }
  }

  lemma ActiveMeans(cfg: Settings, h: seq<Event>, k: HealthKey, now: real)
    requires now >= 0.0
    ensures Active(Standing(cfg, h, k), now) <==> Barred(cfg, h, k, now)
  {
    EntryMeans(cfg, h, k, now);
  }

  // ---------- Under a nondecreasing clock only the latest failure matters ----------

  ghost predicate ClockNondecreasing(h: seq<Event>) {
    forall i, j | 0 <= i < j < |h| && h[i].Failed? && h[j].Failed? :: h[i].at <= h[j].at
  }

  /** Time of the latest standing failure booked on `k`; with `cooling`, of the latest that cools down. */
  function LatestHit(h: seq<Event>, k: HealthKey, cooling: bool): Option<real> {
    if h == [] || ResetBy(h[|h| - 1], k) then None
    else if Hits(h[|h| - 1], k) && (cooling ==> Cools(h[|h| - 1])) then Some(h[|h| - 1].at)
    else LatestHit(h[..|h| - 1], k, cooling)
  }

  lemma {:induction false} LatestBounds(h: seq<Event>, k: HealthKey, cooling: bool, t: real)
    requires forall i | 0 <= i < |h| && h[i].Failed? :: h[i].at <= t
    ensures var l := LatestHit(h, k, cooling); l.Some? ==> l.value <= t
  {
    if h != [] { LatestBounds(h[..|h| - 1], k, cooling, t); }
  }

  /** A key is cooling down exactly when its latest standing cooling failure's
      window has not run out. */
  lemma {:induction false} LatestCooldownDecides(cfg: Settings, h: seq<Event>, k: HealthKey, now: real)
    requires ClockNondecreasing(h)
    ensures var l := LatestHit(h, k, true);
            CoolingDown(cfg, h, k, now) <==> l.Some? && l.value + CooldownOf(cfg, k.scope) > now
  {
    if h != [] {
      var (before, e) := (h[..|h| - 1], h[|h| - 1]);
      assert h == before + [e];
      LatestCooldownDecides(cfg, before, k, now);
      CoolingStep(cfg, before, e, k, now);
      if e.Failed? { LatestBounds(before, k, true, e.at); }
    }
  }

  /** A circuit is open exactly when the streak since the last success has
      reached the threshold and the window since its latest failure has not
      run out. */
  lemma {:induction false} LatestCircuitDecides(cfg: Settings, h: seq<Event>, k: HealthKey, now: real)
    requires ClockNondecreasing(h) && cfg.threshold >= 1 && k.scope.CandidateScope?
    ensures var l := LatestHit(h, k, false);
            CircuitOpen(cfg, h, k, now)
            <==> Streak(h, k) >= cfg.threshold && l.Some? && l.value + cfg.openSeconds > now
  {
    if h != [] {
      var (before, e) := (h[..|h| - 1], h[|h| - 1]);
      assert h == before + [e];
      LatestCircuitDecides(cfg, before, k, now);
      CircuitStep(cfg, before, e, k, now);
      if e.Failed? { LatestBounds(before, k, false, e.at); }
    }
  }

  /** Nothing has happened yet, so every candidate is available. */
  lemma AvailableFresh(cfg: Settings, c: Candidate, now: real)
    requires now >= 0.0
    ensures Available(cfg, [], c, now)
  {
    AvailableMeans(cfg, [], c, now);
  }

  /** A key made from a blank slug reads back as another key. */
  lemma BlankSlugChanges()
    ensures var k := MakeCandidateKey(Candidate("r", "c", Some(" "), None)); MakeCandidateKey(Reread(k)) != k
  {
    hide MakeCandidateKey, Reread;
    KeyingTwice(Candidate("r", "c", Some(" "), None));
    assert " "[1..] == "" && AllSpace(" ");
  }

  /** A success makes its own candidate available at once. */
  lemma SuccessRestores(cfg: Settings, h: seq<Event>, c: Candidate, now: real)
    requires now >= 0.0
    ensures Available(cfg, h + [Succeeded(c)], c, now)
  {
    AvailableMeans(cfg, h + [Succeeded(c)], c, now);
    forall k | k in RelatedKeys(c)
      ensures !Barred(cfg, h + [Succeeded(c)], k, now)
    {
      CoolingStep(cfg, h, Succeeded(c), k, now);
      if k.scope.CandidateScope? { CircuitStep(cfg, h, Succeeded(c), k, now); }
    }
  }

  /** A failure touches only the candidates that share the key it is booked on. */
  lemma FailureIsConfined(cfg: Settings, h: seq<Event>, e: Event, c: Candidate, now: real)
    requires now >= 0.0 && e.Failed? && KeyFor(BlamedScope(e.code), e.c) !in RelatedKeys(c)
    ensures Available(cfg, h + [e], c, now) <==> Available(cfg, h, c, now)
  {
    AvailableMeans(cfg, h, c, now);
    AvailableMeans(cfg, h + [e], c, now);
    forall k | k in RelatedKeys(c)
      ensures Barred(cfg, h + [e], k, now) <==> Barred(cfg, h, k, now)
    {
      CoolingStep(cfg, h, e, k, now);
      if k.scope.CandidateScope? { CircuitStep(cfg, h, e, k, now); }
    }
  }

  // ---------- What one failure does, in the caller's terms ----------

  /** The same route and provider configuration. */
  predicate SameService(a: Candidate, b: Candidate) {
    Normalize(a.route) == Normalize(b.route) && Normalize(a.conf) == Normalize(b.conf)
  }

  /** An absent or empty slug stands for the default one. */
  predicate SameSlug(a: Candidate, b: Candidate) {
    Normalize(if a.slug.Some? && a.slug.value != "" then a.slug.value else "default")
    == Normalize(if b.slug.Some? && b.slug.value != "" then b.slug.value else "default")
  }

  predicate SameModel(a: Candidate, b: Candidate) {
    (if a.model.Some? then Strip(a.model.value) else "") == (if b.model.Some? then Strip(b.model.value) else "")
  }

  lemma SharedKeys(a: Candidate, b: Candidate)
    ensures KeyFor(CredentialScope, a) in RelatedKeys(b) <==> SameService(a, b) && SameSlug(a, b)
    ensures KeyFor(ModelScope, a) in RelatedKeys(b) <==> SameService(a, b) && SameModel(a, b)
    ensures KeyFor(CandidateScope, a) in RelatedKeys(b) <==> SameService(a, b) && SameSlug(a, b) && SameModel(a, b)
  {
    hide Normalize, Strip;
  }

  predicate BadCredential(code: ErrorCode) {
    code in {AuthenticationFailed, PermissionDenied, MissingApiKey, QuotaExceeded}
  }

  lemma BlameIs(code: ErrorCode)
    ensures BlamedScope(code) == if BadCredential(code) then CredentialScope
                                 else if code == ModelNotFound then ModelScope else CandidateScope
  {
  }

  /** One more failure on `k` bars it until its cooldown or open window runs out. */
  lemma BarredStep(cfg: Settings, h: seq<Event>, c: Candidate, code: ErrorCode, t: real, k: HealthKey, now: real)
    requires now >= 0.0
    ensures var own := k == KeyFor(BlamedScope(code), c);
            Barred(cfg, h + [Failed(c, code, t)], k, now) <==>
              || Barred(cfg, h, k, now)
              || (own && (k.scope != CandidateScope || Retryable(code)) && now < t + CooldownOf(cfg, k.scope))
              || (own && k.scope == CandidateScope && Streak(h, k) + 1 >= cfg.threshold && now < t + cfg.openSeconds)
  {
    hide CoolingDown, CircuitOpen, Streak, RelatedKeys, KeyFor;
    CoolingStep(cfg, h, Failed(c, code, t), k, now);
    if k.scope.CandidateScope? {
      CircuitStep(cfg, h, Failed(c, code, t), k, now);
    } else {
      NoCircuit(cfg, h, k, now);
      NoCircuit(cfg, h + [Failed(c, code, t)], k, now);
    }
  }

  lemma NoCircuit(cfg: Settings, h: seq<Event>, k: HealthKey, now: real)
    requires k.scope != CandidateScope
    ensures !CircuitOpen(cfg, h, k, now)
  {
  }

  /** Available after one more failure: as before, and not barred by that failure. */
  lemma AvailableAfter(
    cfg: Settings, h: seq<Event>, c: Candidate, code: ErrorCode, t: real, other: Candidate, now: real)
    requires now >= 0.0
    ensures var k := KeyFor(BlamedScope(code), c);
            Available(cfg, h + [Failed(c, code, t)], other, now) <==>
              && Available(cfg, h, other, now)
              && !(k in RelatedKeys(other)
                   && (((k.scope != CandidateScope || Retryable(code)) && now < t + CooldownOf(cfg, k.scope))
                       || (k.scope == CandidateScope && Streak(h, k) + 1 >= cfg.threshold
                           && now < t + cfg.openSeconds)))
  {
    hide Available, Barred, Streak, KeyFor, RelatedKeys, Retryable, CooldownOf;
    var e := Failed(c, code, t);
    AvailableMeans(cfg, h, other, now);
    AvailableMeans(cfg, h + [e], other, now);
    forall k | k in RelatedKeys(other) { BarredStep(cfg, h, c, code, t, k, now); }
  }

  /** A failure that blames the credential shuts out, until the credential's cooldown
      ends, every candidate with the same route, configuration and slug, whatever
      its model, and changes nothing for the others. */
  lemma CredentialFailureSpreads(
    cfg: Settings, h: seq<Event>, c: Candidate, code: ErrorCode, t: real, other: Candidate, now: real)
    requires now >= 0.0 && code in {AuthenticationFailed, PermissionDenied, MissingApiKey, QuotaExceeded}
    ensures Available(cfg, h + [Failed(c, code, t)], other, now) <==>
              Available(cfg, h, other, now)
              && !(SameService(c, other) && SameSlug(c, other) && now < t + cfg.credentialCooldown)
  {
    hide Available, SameService, SameSlug, RelatedKeys, Streak;
    AvailableAfter(cfg, h, c, code, t, other, now);
    SharedKeys(c, other);
  }

  /** A model that is not found shuts out every candidate with the same route,
      configuration and model, whatever its slug. */
  lemma ModelFailureSpreads(cfg: Settings, h: seq<Event>, c: Candidate, t: real, other: Candidate, now: real)
    requires now >= 0.0
    ensures Available(cfg, h + [Failed(c, ModelNotFound, t)], other, now) <==>
              Available(cfg, h, other, now)
              && !(SameService(c, other) && SameModel(c, other) && now < t + cfg.modelCooldown)
  {
    hide Available, SameService, SameModel, RelatedKeys, Streak;
    AvailableAfter(cfg, h, c, ModelNotFound, t, other, now);
    SharedKeys(c, other);
  }

  /** Every other failure strikes its own candidate alone: a passing one for the
      candidate's cooldown, any for the open window once the streak is long enough. */
  lemma OtherFailuresStayPut(
    cfg: Settings, h: seq<Event>, c: Candidate, code: ErrorCode, t: real, other: Candidate, now: real)
    requires now >= 0.0
    requires code !in {AuthenticationFailed, PermissionDenied, MissingApiKey, QuotaExceeded, ModelNotFound}
    ensures var passing := code in {Timeout, RateLimited, NetworkError, ProviderServerError, TemporaryUnavailable};
            Available(cfg, h + [Failed(c, code, t)], other, now) <==>
              && Available(cfg, h, other, now)
              && !(SameService(c, other) && SameSlug(c, other) && SameModel(c, other)
                   && ((passing && now < t + cfg.candidateCooldown)
                       || (Streak(h, KeyFor(CandidateScope, c)) + 1 >= cfg.threshold && now < t + cfg.openSeconds)))
  {
    hide Available, SameService, SameSlug, SameModel, RelatedKeys, Streak, BlamedScope, KeyFor, CooldownOf;
    AvailableAfter(cfg, h, c, code, t, other, now);
    SharedKeys(c, other);
    OtherCodes(cfg, code);
    hide Retryable;
  }

  lemma OtherCodes(cfg: Settings, code: ErrorCode)
    requires code !in {AuthenticationFailed, PermissionDenied, MissingApiKey, QuotaExceeded, ModelNotFound}
    ensures BlamedScope(code) == CandidateScope && CooldownOf(cfg, CandidateScope) == cfg.candidateCooldown
    ensures Retryable(code) <==> code in {Timeout, RateLimited, NetworkError, ProviderServerError, TemporaryUnavailable}
  {
  }

  /** The streak counts the other failures of the very candidate since its last success. */
  lemma StreakCounts(h: seq<Event>, e: Event, c: Candidate)
    ensures var own := SameService(e.c, c) && SameSlug(e.c, c) && SameModel(e.c, c);
            var k := KeyFor(CandidateScope, c);
            Streak([], k) == 0
            && Streak(h + [e], k)
               == if own && e.Succeeded? then 0
                  else if own && e.code !in {AuthenticationFailed, PermissionDenied, MissingApiKey, QuotaExceeded,
                                             ModelNotFound} then Streak(h, k) + 1
                  else Streak(h, k)
  {
    hide SameService, SameSlug, SameModel, Streak, Normalize, Strip;
    StreakStep(h, e, KeyFor(CandidateScope, c));
    SharedKeys(e.c, c);
    SharedKeys(c, e.c);
    SameIsMutual(e.c, c);
    assert Streak([], KeyFor(CandidateScope, c)) == 0 by { NoStreak(KeyFor(CandidateScope, c)); }
  }

  lemma NoStreak(k: HealthKey)
    ensures Streak([], k) == 0
  {
  }

  lemma SameIsMutual(a: Candidate, b: Candidate)
    ensures SameService(a, b) == SameService(b, a) && SameSlug(a, b) == SameSlug(b, a)
    ensures SameModel(a, b) == SameModel(b, a)
  {
  }

  /** A success clears what it shares with a candidate: its own entry, that of the
      credential, that of the model. */
  lemma SuccessClears(cfg: Settings, h: seq<Event>, c: Candidate, other: Candidate, now: real)
    requires now >= 0.0
    ensures var (service, slug, model) := (SameService(c, other), SameSlug(c, other), SameModel(c, other));
            Available(cfg, h + [Succeeded(c)], other, now) <==>
              && (Barred(cfg, h, KeyFor(CandidateScope, other), now) ==> service && slug && model)
              && (Barred(cfg, h, KeyFor(CredentialScope, other), now) ==> service && slug)
              && (Barred(cfg, h, KeyFor(ModelScope, other), now) ==> service && model)
  {
    hide Available, SameService, SameSlug, SameModel, Barred, Normalize, Strip;
    AvailableMeans(cfg, h + [Succeeded(c)], other, now);
    SharedKeys(other, c);
    SameIsMutual(c, other);
    forall k | k in RelatedKeys(other) { ClearedStep(cfg, h, c, k, now); }
    assert RelatedKeys(other)[0] in RelatedKeys(other) && RelatedKeys(other)[1] in RelatedKeys(other);
    assert RelatedKeys(other)[2] in RelatedKeys(other);
  }

  lemma ClearedStep(cfg: Settings, h: seq<Event>, c: Candidate, k: HealthKey, now: real)
    ensures Barred(cfg, h + [Succeeded(c)], k, now) <==> k !in RelatedKeys(c) && Barred(cfg, h, k, now)
  {
    hide CoolingDown, CircuitOpen, RelatedKeys;
    CoolingStep(cfg, h, Succeeded(c), k, now);
    if k.scope.CandidateScope? {
      CircuitStep(cfg, h, Succeeded(c), k, now);
    } else {
      NoCircuit(cfg, h, k, now);
      NoCircuit(cfg, h + [Succeeded(c)], k, now);
    }
  }

  /** Whatever follows, short of a success with the same credential. */
  lemma {:induction false} CredentialStaysOut(
    cfg: Settings, h: seq<Event>, c: Candidate, code: ErrorCode, t: real, more: seq<Event>, other: Candidate, now: real)
    requires now >= 0.0 && code in {AuthenticationFailed, PermissionDenied, MissingApiKey, QuotaExceeded}
    requires SameService(c, other) && SameSlug(c, other) && now < t + cfg.credentialCooldown
    requires forall e | e in more && e.Succeeded? :: !(SameService(c, e.c) && SameSlug(c, e.c))
    ensures !Available(cfg, h + [Failed(c, code, t)] + more, other, now)
  {
    hide Available, CoolingDown, CircuitOpen, SameService, SameSlug, RelatedKeys;
    StillCooling(cfg, h, c, code, t, more, now);
    SharedKeys(c, other);
    AvailableMeans(cfg, h + [Failed(c, code, t)] + more, other, now);
  }

  lemma {:induction false} StillCooling(
    cfg: Settings, h: seq<Event>, c: Candidate, code: ErrorCode, t: real, more: seq<Event>, now: real)
    requires BadCredential(code) && now < t + cfg.credentialCooldown
    requires forall e | e in more && e.Succeeded? :: !(SameService(c, e.c) && SameSlug(c, e.c))
    ensures CoolingDown(cfg, h + [Failed(c, code, t)] + more, KeyFor(CredentialScope, c), now)
  {
    hide CoolingDown, SameService, SameSlug, KeyFor;
    var past := h + [Failed(c, code, t)];
    if more == [] {
      StartsCooling(cfg, h, c, code, t, now);
      assert past + [] == past;
    } else {
      var (rest, e) := (more[..|more| - 1], more[|more| - 1]);
      assert more == rest + [e] && e in more;
      StillCooling(cfg, h, c, code, t, rest, now);
      KeepsCooling(cfg, past + rest, e, c, now);
      assert past + rest + [e] == past + more;
    }
  }

  lemma StartsCooling(cfg: Settings, h: seq<Event>, c: Candidate, code: ErrorCode, t: real, now: real)
    requires BadCredential(code) && now < t + cfg.credentialCooldown
    ensures CoolingDown(cfg, h + [Failed(c, code, t)], KeyFor(CredentialScope, c), now)
  {
    hide CoolingDown, RelatedKeys, KeyFor;
    CoolingStep(cfg, h, Failed(c, code, t), KeyFor(CredentialScope, c), now);
  }

  lemma KeepsCooling(cfg: Settings, h: seq<Event>, e: Event, c: Candidate, now: real)
    requires CoolingDown(cfg, h, KeyFor(CredentialScope, c), now)
    requires e.Succeeded? ==> !(SameService(c, e.c) && SameSlug(c, e.c))
    ensures CoolingDown(cfg, h + [e], KeyFor(CredentialScope, c), now)
  {
    hide CoolingDown, RelatedKeys, KeyFor, SameService, SameSlug;
    CoolingStep(cfg, h, e, KeyFor(CredentialScope, c), now);
    SharedKeys(c, e.c);
  }
}
