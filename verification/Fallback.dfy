/** `ModelManager.generate`: the fallback loop over route candidates. */
module Fallback {
  import opened Common
  import opened PyText
  import opened ModelErrors
  import opened Retry
  import opened Routing
  import H = CandidateHealth
  import T = Truncation

  /** The outside world over one call, by round of the loop: what resolution
      meets, the retry limit among the resolved parameters, whether a model
      object exists, how the provider answers each attempt, and when the
      outcome is booked. */
  datatype World = World(
    around: nat -> Surroundings,
    maxRetries: nat -> Option<int>,
    missingModel: nat -> Option<ErrorCode>,
    replies: nat -> nat -> Reply,
    bookedAt: nat -> real)

  datatype Note = Note(key: H.CandidateKey, code: ErrorCode)

  /** The runtime configuration's part of a retry policy. */
  datatype RetryDefaults = RetryDefaults(retries: Option<int>, baseDelay: real, maxDelay: real)

  /** One pass of the loop: what was resolved, the messages sent, how often the
      provider was invoked, and the pass's final reply. */
  datatype Round = Round(resolution: Resolution, sent: seq<T.Message>, invocations: nat, reply: Reply)

  datatype Outcome = Outcome(reply: Reply, fallbackReason: Option<ErrorCode>, notes: seq<Note>)

  predicate MayFallBack(s: Setup, args: CallArgs, r: Resolution, reply: Reply) {
    && reply.Fail? && args.allowFallback
    && s.routeConfig.Some? && s.routeConfig.value.explicitCandidates
    && r.Resolved? && r.choice.Some?
    && args.conf.None? && args.slug.None? && args.model.None?
    && FallbackAllowed(reply.code)
  }

  /** What `_record_candidate_result` books for a round. */
  function Booking(s: Setup, round: Round, at: real): seq<H.Event> {
    match KeyOf(s, round.resolution)
    case None => []
    case Some(k) =>
      var c := H.Reread(k).(route := s.route);
      if round.reply.Succeed? then [H.Succeeded(c)]
      else if FallbackAllowed(round.reply.code) then [H.Failed(c, round.reply.code, at)]
      else []
  }

  function Bookings(s: Setup, rounds: seq<Round>, w: World): seq<H.Event> {
    if rounds == [] then []
    else
      var n := |rounds| - 1;
      Bookings(s, rounds[..n], w) + Booking(s, rounds[n], w.bookedAt(n))
  }

  function KeysIn(s: Setup, rounds: seq<Round>): set<H.CandidateKey> {
    if rounds == [] then {}
    else
      var n := |rounds| - 1;
      KeysIn(s, rounds[..n])
      + match KeyOf(s, rounds[n].resolution) case Some(k) => {k} case None => {}
  }

  function NotesOf(s: Setup, rounds: seq<Round>): seq<Note> {
    if rounds == [] then []
    else
      var n := |rounds| - 1;
      NotesOf(s, rounds[..n])
      + match KeyOf(s, rounds[n].resolution)
        case Some(k) => if rounds[n].reply.Fail? then [Note(k, rounds[n].reply.code)] else []
        case None => []
  }

  // ---------- What a run of the loop is ----------

  /** Everything one call is run against. */
  datatype Call = Call(
    s: Setup, args: CallArgs, settings: H.Settings, before: seq<H.Event>, w: World,
    defaults: RetryDefaults, allowRetry: bool)

  /** `_retry_policy` of round `n`. */
  function PolicyAt(c: Call, n: nat): RetryPolicy {
    PolicyFor(c.w.maxRetries(n), c.defaults.retries, c.allowRetry, c.defaults.baseDelay, c.defaults.maxDelay)
  }

  /** `sent` is what trimming makes of the call's messages under a resolution. */
  ghost predicate Sends(args: CallArgs, r: Resolution, sent: seq<T.Message>)
    requires r.Resolved?
  {
    var messages := T.ToMessages(args.prompt, args.messages);
    var check := if r.truncate then T.TruncationRequested else T.Fits;
    if T.Trims(r.limits, check, T.Total(messages))
    then exists first :: T.KeepsTail(messages, T.Budget(r.limits).value, first, sent)
    else sent == messages
  }

  /** The resolution made once `done` rounds have failed. */
  function ResolutionAfter(c: Call, done: seq<Round>): Resolution {
    var around := c.w.around(|done|);
    ResolveWith(c.s, c.args,
                Selected(c.s, c.args, KeysIn(c.s, done), c.settings, c.before + Bookings(c.s, done, c.w), around))
  }

  /** Round `n` was answered as the world answers it. */
  ghost predicate Answered(c: Call, round: Round, n: nat) {
    match c.w.missingModel(n)
    case Some(code) => round.invocations == 0 && round.reply == Fail(code, Retryable(code))
    case None =>
      && EndsAt(PolicyAt(c, n), c.allowRetry, c.w.replies(n), round.invocations)
      && round.reply == c.w.replies(n)(round.invocations)
  }

  /** After `done`, the loop excludes the last key and looks further. */
  predicate GoesOn(c: Call, done: seq<Round>) {
    && done != []
    && var n := |done| - 1;
       && MayFallBack(c.s, c.args, done[n].resolution, done[n].reply)
       && KeyOf(c.s, done[n].resolution).Some?
       && KeyOf(c.s, done[n].resolution).value !in KeysIn(c.s, done[..n])
  }

  /** `round` is what the loop does next after `done`. */
  ghost predicate Joins(c: Call, done: seq<Round>, round: Round) {
    && (done != [] ==> GoesOn(c, done) && round.resolution.Resolved? && round.resolution.choice.Some?)
    && round.resolution == ResolutionAfter(c, done)
    && round.resolution.Resolved?
    && Sends(c.args, round.resolution, round.sent)
    && Answered(c, round, |done|)
  }

  ghost predicate IsRun(c: Call, rounds: seq<Round>) {
    rounds == [] || (var n := |rounds| - 1; IsRun(c, rounds[..n]) && Joins(c, rounds[..n], rounds[n]))
  }

  /** After `rounds` the loop has nothing left to try. */
  ghost predicate Stops(c: Call, rounds: seq<Round>) {
    rounds != [] && GoesOn(c, rounds) ==>
      ResolutionAfter(c, rounds).Unresolved? || ResolutionAfter(c, rounds).choice.None?
  }

  ghost predicate Reports(c: Call, rounds: seq<Round>, o: Outcome) {
    if rounds == [] then
      ResolutionAfter(c, []).Unresolved?
      && o == Outcome(Fail(ResolutionAfter(c, []).code, Retryable(ResolutionAfter(c, []).code)), None, [])
    else
      var n := |rounds| - 1;
      && o.reply == rounds[n].reply
      && o.notes == NotesOf(c.s, if GoesOn(c, rounds) then rounds else rounds[..n])
      && o.fallbackReason == if o.reply.Succeed? && o.notes != [] then Some(o.notes[0].code) else None
  }

  class ModelManager {
    const health: H.CandidateHealthRegistry
    const defaults: RetryDefaults

    constructor (health: H.CandidateHealthRegistry, defaults: RetryDefaults)
      ensures this.health == health && this.defaults == defaults
    {
      this.health, this.defaults := health, defaults;
    }

    method Generate(s: Setup, args: CallArgs, allowRetry: bool, w: World)
      returns (outcome: Outcome, rounds: seq<Round>)
      requires health.Valid() && Configured(s)
      modifies health
      ensures health.Valid()
      ensures var c := Call(s, args, health.settings, old(health.history), w, defaults, allowRetry);
              && IsRun(c, rounds) && Stops(c, rounds) && Reports(c, rounds, outcome)
              && health.history == old(health.history) + Bookings(s, rounds, w)
    {
      hide ResolutionAfter, KeyOf, MayFallBack, Booking, Bookings, KeysIn, NotesOf;
      hide IsRun, GoesOn, Answered, KeySet, Configured, Stops, Sends, Reports, Joins;
      ghost var c := Call(s, args, health.settings, health.history, w, defaults, allowRetry);
      var excluded: set<H.CandidateKey> := {};
      var notes: seq<Note> := [];
      rounds := [];
      StartRun(c);
      var resolution, sent := PrepareCall(s, args, excluded, w, 0, c, []);
      while true
        invariant health.Valid() && health.settings == c.settings
        invariant health.history == c.before + Bookings(s, rounds, w)
        invariant IsRun(c, rounds) && (rounds != [] ==> GoesOn(c, rounds))
        invariant excluded == KeysIn(s, rounds) && notes == NotesOf(s, rounds)
        invariant resolution == ResolutionAfter(c, rounds)
        invariant resolution.Resolved? ==> Sends(args, resolution, sent)
        invariant rounds != [] ==> resolution.Resolved? && resolution.choice.Some?
        decreases |KeySet(s, args)| - |rounds|
      {
        if resolution.Unresolved? {
          outcome := Outcome(Fail(resolution.code, Retryable(resolution.code)), None, notes);
          FirstUnresolved(c, outcome);
          return;
        }
        ghost var done := rounds;
        var round := RunRound(resolution, sent, allowRetry, w, |rounds|, c);
        rounds := rounds + [round];
        ExtendRun(c, done, round);
        ExtendTables(c, done, round, KeyOf(s, resolution));
        ExtendGoesOn(c, done, round, KeyOf(s, resolution));
        RecordCandidateResult(s, round, w.bookedAt(|rounds| - 1));
        if round.reply.Succeed? {
          outcome := Outcome(round.reply, if notes != [] then Some(notes[0].code) else None, notes);
          FinishRun(c, done, round, outcome);
          return;
        }
        outcome := Outcome(round.reply, None, notes);
        if !MayFallBack(s, args, resolution, round.reply) {
          FinishRun(c, done, round, outcome);
          return;
        }
        var key := KeyOf(s, resolution);
        if key.None? || key.value in excluded {
          FinishRun(c, done, round, outcome);
          return;
        }
        excluded := excluded + {key.value};
        notes := notes + [Note(key.value, round.reply.code)];
        var next, nextSent := PrepareCall(s, args, excluded, w, |rounds|, c, rounds);
        if next.Unresolved? || next.choice.None? {
          outcome := Outcome(round.reply, None, notes);
          FinishRun(c, done, round, outcome);
          return;
        }
        KeysWithinSet(c, rounds);
        resolution, sent := next, nextSent;
      }
    }

    /** `_prepare_call`: the resolution, and the messages trimmed to its limits. */
    method PrepareCall(
      s: Setup, args: CallArgs, excluded: set<H.CandidateKey>, w: World, n: nat, ghost c: Call, ghost done: seq<Round>)
      returns (r: Resolution, sent: seq<T.Message>)
      requires health.Valid() && n == |done| && excluded == KeysIn(s, done)
      requires c.s == s && c.args == args && c.w == w && c.settings == health.settings
      requires health.history == c.before + Bookings(s, done, w)
      ensures r == ResolutionAfter(c, done)
      ensures r.Resolved? ==> Sends(args, r, sent)
    {
      hide ResolveWith, Selected, KeysIn, Bookings;
      r := Resolve(s, args, excluded, health, w.around(n));
      sent := [];
      if r.Resolved? {
        sent := Trimmed(args, r);
      }
    }

    method Trimmed(args: CallArgs, r: Resolution) returns (sent: seq<T.Message>)
      requires r.Resolved?
      ensures Sends(args, r, sent)
    {
      hide T.KeepsTail, T.CheckSize;
      var check := if r.truncate then T.TruncationRequested else T.Fits;
      var prompt, kept, dropped, first := T.ApplyTruncation(args.prompt, args.messages, r.limits, check);
      if kept.Some? {
        return kept.value;
      }
      sent := T.ToMessages(prompt, args.messages);
      if args.messages == [] && T.Trims(r.limits, check, T.Total(T.ToMessages(args.prompt, []))) {
        T.PromptTail(args.prompt, T.Budget(r.limits).value);
      }
    }

    method RunRound(r: Resolution, sent: seq<T.Message>, allowRetry: bool, w: World, n: nat, ghost c: Call)
      returns (round: Round)
      requires c.w == w && c.defaults == defaults && c.allowRetry == allowRetry
      ensures round.resolution == r && round.sent == sent && Answered(c, round, n)
    {
      var policy := PolicyFor(w.maxRetries(n), defaults.retries, allowRetry, defaults.baseDelay, defaults.maxDelay);
      var missing := w.missingModel(n);
      if missing.Some? {
        return Round(r, sent, 0, Fail(missing.value, Retryable(missing.value)));
      }
      var reply, attempts, history, slept := GenerateWithRetry(policy, allowRetry, w.replies(n));
      return Round(r, sent, attempts, reply);
    }

    method RecordCandidateResult(s: Setup, round: Round, at: real)
      requires health.Valid()
      modifies health
      ensures health.Valid() && health.history == old(health.history) + Booking(s, round, at)
    {
      var key := KeyOf(s, round.resolution);
      if key.None? {
        return;
      }
      var c := H.Reread(key.value).(route := s.route);
      if round.reply.Succeed? {
        health.RecordSuccess(c);
      } else if FallbackAllowed(round.reply.code) {
        health.RecordFailure(c, round.reply.code, at);
      }
    }
  }

  /** The loop ends after `round`, whether or not its key was still added. */
  lemma FinishRun(c: Call, done: seq<Round>, round: Round, o: Outcome)
    requires var rounds := done + [round];
             && (GoesOn(c, rounds) ==>
                   ResolutionAfter(c, rounds).Unresolved? || ResolutionAfter(c, rounds).choice.None?)
             && o.notes == NotesOf(c.s, if GoesOn(c, rounds) then rounds else done)
    requires o.reply == round.reply
    requires o.fallbackReason == if o.reply.Succeed? && o.notes != [] then Some(o.notes[0].code) else None
    ensures Stops(c, done + [round]) && Reports(c, done + [round], o)
  {
    hide ResolutionAfter, GoesOn, NotesOf;
    assert (done + [round])[..|done|] == done;
  }

  lemma StartRun(c: Call)
    ensures IsRun(c, []) && !GoesOn(c, []) && Stops(c, []) && KeysIn(c.s, []) == {} && NotesOf(c.s, []) == []
    ensures c.before + Bookings(c.s, [], c.w) == c.before
  {
  }

  lemma FirstUnresolved(c: Call, o: Outcome)
    requires var r := ResolutionAfter(c, []); r.Unresolved? && o == Outcome(Fail(r.code, Retryable(r.code)), None, [])
    ensures Reports(c, [], o)
  {
    hide ResolutionAfter;
  }

  lemma ExtendRun(c: Call, done: seq<Round>, round: Round)
    requires IsRun(c, done) && round.resolution == ResolutionAfter(c, done) && round.resolution.Resolved?
    requires done != [] ==> GoesOn(c, done) && round.resolution.choice.Some?
    requires Sends(c.args, round.resolution, round.sent) && Answered(c, round, |done|)
    ensures IsRun(c, done + [round])
  {
    hide ResolutionAfter, GoesOn, Answered, Sends;
    assert (done + [round])[..|done|] == done;
  }

  /** What one more round adds to the tables of the loop. */
  lemma ExtendTables(c: Call, done: seq<Round>, round: Round, k: Option<H.CandidateKey>)
    requires k == KeyOf(c.s, round.resolution)
    ensures var rounds := done + [round];
            && Bookings(c.s, rounds, c.w) == Bookings(c.s, done, c.w) + Booking(c.s, round, c.w.bookedAt(|done|))
            && KeysIn(c.s, rounds) == KeysIn(c.s, done) + (if k.Some? then {k.value} else {})
            && NotesOf(c.s, rounds) == NotesOf(c.s, done)
                 + (if k.Some? && round.reply.Fail? then [Note(k.value, round.reply.code)] else [])
  {
    hide KeyOf, Booking;
    var rounds := done + [round];
    assert rounds[..|done|] == done && rounds[|done|] == round;
  }

  lemma ExtendGoesOn(c: Call, done: seq<Round>, round: Round, k: Option<H.CandidateKey>)
    requires k == KeyOf(c.s, round.resolution)
    ensures GoesOn(c, done + [round]) <==>
              MayFallBack(c.s, c.args, round.resolution, round.reply) && k.Some? && k.value !in KeysIn(c.s, done)
    ensures MayFallBack(c.s, c.args, round.resolution, round.reply) ==> round.reply.Fail?
  {
    hide KeyOf, KeysIn;
    assert (done + [round])[..|done|] == done;
  }

  // ---------- Bounds on every run ----------

  /** Provider configurations are named: `RouteCandidate` refuses a blank one. */
  predicate Configured(s: Setup) {
    forall c | c in Candidates(s) :: c.conf != ""
  }

  /** The distinct keys the configured candidates resolve to. */
  function KeySet(s: Setup, args: CallArgs): set<H.CandidateKey> {
    set c | c in Candidates(s) && ConfOf(s, c.conf).Some? :: ResolvedKey(s, args, c, ConfOf(s, c.conf).value)
  }

  /** A resolution made after `done` carries the resolved key of its candidate,
      whose filter key was not excluded. */
  predicate CarriesKey(c: Call, done: seq<Round>, r: Resolution)
    requires r.Resolved? && r.choice.Some?
  {
    var item := r.choice.value;
    && item in Candidates(c.s) && ConfOf(c.s, item.conf).Some?
    && var conf := ConfOf(c.s, item.conf).value;
       && KeyOf(c.s, r) == Some(ResolvedKey(c.s, c.args, item, conf))
       && ResolvedKey(c.s, c.args, item, conf) in KeySet(c.s, c.args)
       && FilterKey(c.s, item, conf) !in KeysIn(c.s, done)
  }

  lemma RoundKey(c: Call, rounds: seq<Round>)
    requires IsRun(c, rounds) && rounds != [] && Configured(c.s)
    requires rounds[|rounds| - 1].resolution.Resolved? && rounds[|rounds| - 1].resolution.choice.Some?
    ensures CarriesKey(c, rounds[..|rounds| - 1], rounds[|rounds| - 1].resolution)
  {
    hide ResolveWith, Selected, Answered, Sends, Enabled, Bookings;
    hide KeysIn, KeyOf, ConfOf, ResolvedKey, FilterKey, IsRun;
    LastJoins(c, rounds);
    var done := rounds[..|rounds| - 1];
    var around := c.w.around(|done|);
    var selected := Selected(c.s, c.args, KeysIn(c.s, done), c.settings, c.before + Bookings(c.s, done, c.w), around);
    ResolutionShape(c.s, c.args, selected);
    assert selected == rounds[|rounds| - 1].resolution.choice;
    EnabledHasConf(c.s, selected.value, KeysIn(c.s, done));
    SelectedIsEnabled(c.s, c.args, KeysIn(c.s, done), c.settings, c.before + Bookings(c.s, done, c.w), around);
    KeyOfChosen(c.s, c.args, rounds[|rounds| - 1].resolution.choice.value);
  }

  lemma EnabledHasConf(s: Setup, item: RouteCandidate, excluded: set<H.CandidateKey>)
    ensures Enabled(s, item, excluded) ==>
              ConfOf(s, item.conf).Some? && FilterKey(s, item, ConfOf(s, item.conf).value) !in excluded
  {
    hide FilterKey, ConfOf;
  }

  lemma LastJoins(c: Call, rounds: seq<Round>)
    requires IsRun(c, rounds) && rounds != []
    ensures var n := |rounds| - 1; IsRun(c, rounds[..n]) && Joins(c, rounds[..n], rounds[n])
  {
    hide Joins;
  }

  lemma ChoiceMade(c: Call, rounds: seq<Round>)
    requires rounds != [] && GoesOn(c, rounds)
    ensures rounds[|rounds| - 1].resolution.Resolved? && rounds[|rounds| - 1].resolution.choice.Some?
  {
  }

  /** While the loop goes on, every round has added a new key of the key set. */
  lemma {:induction false} KeysWithinSet(c: Call, rounds: seq<Round>)
    requires IsRun(c, rounds) && (rounds != [] ==> GoesOn(c, rounds)) && Configured(c.s)
    ensures KeysIn(c.s, rounds) <= KeySet(c.s, c.args)
    ensures |rounds| == |KeysIn(c.s, rounds)| <= |KeySet(c.s, c.args)|
  {
    hide ResolutionAfter, KeyOf, Answered, MayFallBack, KeySet, ConfOf, ResolvedKey, FilterKey;
    if rounds != [] {
      KeysWithinSet(c, rounds[..|rounds| - 1]);
      ChoiceMade(c, rounds);
      RoundKey(c, rounds);
    }
    SubsetSize(KeysIn(c.s, rounds), KeySet(c.s, c.args));
  }

  lemma {:induction false} SubsetSize<T>(a: set<T>, b: set<T>)
    requires a <= b
    ensures |a| <= |b|
  {
    if x :| x in a {
      SubsetSize(a - {x}, b - {x});
    }
  }

  /** A call makes at most one round more than there are distinct candidate
      keys, each of at most six invocations. */
  lemma {:induction false} RunIsBounded(c: Call, rounds: seq<Round>)
    requires IsRun(c, rounds) && Configured(c.s)
    ensures |rounds| <= |KeySet(c.s, c.args)| + 1
    ensures forall r | r in rounds :: r.invocations <= 6
  {
    hide ResolutionAfter, GoesOn, KeysIn, KeySet, Configured;
    if rounds != [] {
      var n := |rounds| - 1;
      RunIsBounded(c, rounds[..n]);
      if n > 0 { KeysWithinSet(c, rounds[..n]); }
      if c.w.missingModel(n).None? {
        RetryBudget(PolicyAt(c, n), c.allowRetry, c.w.replies(n), rounds[n].invocations);
      }
      assert rounds == rounds[..n] + [rounds[n]];
    }
  }

  predicate AllAligned(c: Call) {
    forall item | item in Candidates(c.s) :: Aligned(c.s, c.args, item)
  }

  /** With aligned keys no candidate key is tried in two rounds, so there are
      no more rounds than keys. */
  lemma AlignedRunNeverRepeats(c: Call, rounds: seq<Round>)
    requires IsRun(c, rounds) && Configured(c.s) && AllAligned(c)
    ensures rounds != [] ==>
      var n := |rounds| - 1;
      var k := KeyOf(c.s, rounds[n].resolution);
      (k.Some? ==> k.value !in KeysIn(c.s, rounds[..n]))
    ensures |rounds| <= 1 || |rounds| <= |KeySet(c.s, c.args)|
  {
    hide ResolutionAfter, H.MakeCandidateKey, KeySet, FilterKey, ResolvedKey, ConfOf, KeysIn, Answered;
    if rounds != [] {
      var n := |rounds| - 1;
      if rounds[n].resolution.choice.Some? { RoundKey(c, rounds); }
      if n > 0 {
        KeysWithinSet(c, rounds[..n]);
        var k := KeyOf(c.s, rounds[n].resolution).value;
        SubsetSize(KeysIn(c.s, rounds[..n]) + {k}, KeySet(c.s, c.args));
      }
    }
  }

  /** Without alignment the one extra round is the repeat of an excluded key,
      and the loop ends on it without going further. */
  lemma RepeatEndsTheRun(c: Call, rounds: seq<Round>)
    requires IsRun(c, rounds) && rounds != []
    requires var n := |rounds| - 1;
             var k := KeyOf(c.s, rounds[n].resolution); k.Some? && k.value in KeysIn(c.s, rounds[..n])
    ensures !GoesOn(c, rounds) && Stops(c, rounds)
    ensures forall round :: !IsRun(c, rounds + [round])
  {
    hide ResolutionAfter, Answered, Sends, KeyOf, MayFallBack, KeysIn;
    forall round ensures !IsRun(c, rounds + [round]) {
      assert (rounds + [round])[..|rounds|] == rounds;
    }
  }

  // ---------- When the loop goes on ----------

  /** No round follows a success, a block by policy, an invalid prompt or a
      cancellation; none follows the first when the call forbids fallback or names
      its configuration, credential or model, nor without explicit candidates. */
  lemma {:induction false} EndsForGood(c: Call, rounds: seq<Round>)
    requires IsRun(c, rounds)
    ensures forall i | 0 <= i < |rounds| - 1 ::
              rounds[i].reply.Fail? && rounds[i].reply.code !in {BlockedByPolicy, InvalidPrompt, UserCancelled}
    ensures |rounds| > 1 ==>
              && c.args.allowFallback && c.args.conf.None? && c.args.slug.None? && c.args.model.None?
              && c.s.routeConfig.Some? && c.s.routeConfig.value.explicitCandidates
  {
    hide ResolutionAfter, KeyOf, KeysIn, Answered, Sends;
    if rounds != [] {
      var n := |rounds| - 1;
      LastJoins(c, rounds);
      EndsForGood(c, rounds[..n]);
      if n > 0 { assert rounds[..n][n - 1] == rounds[n - 1]; }
    }
  }

  /** After a round that nothing above speaks against, made for a candidate whose key
      was new, the loop stops only if no candidate can be resolved any more. */
  lemma GoesOnOtherwise(c: Call, rounds: seq<Round>)
    requires IsRun(c, rounds) && rounds != []
    requires c.args.allowFallback && c.args.conf.None? && c.args.slug.None? && c.args.model.None?
    requires c.s.routeConfig.Some? && c.s.routeConfig.value.explicitCandidates
    requires var last := rounds[|rounds| - 1];
             && last.reply.Fail? && last.reply.code !in {BlockedByPolicy, InvalidPrompt, UserCancelled}
             && last.resolution.Resolved? && last.resolution.choice.Some? && last.resolution.conf.Some?
             && KeyOf(c.s, last.resolution).value !in KeysIn(c.s, rounds[..|rounds| - 1])
    ensures Stops(c, rounds) <==> ResolutionAfter(c, rounds).Unresolved? || ResolutionAfter(c, rounds).choice.None?
  {
    hide ResolutionAfter, KeysIn, IsRun;
  }

  /** The first success ends the run: everything before it failed in a way that allows fallback. */
  lemma {:induction false} EarlierRoundsFailed(c: Call, rounds: seq<Round>, i: nat)
    requires IsRun(c, rounds) && i < |rounds| - 1
    ensures MayFallBack(c.s, c.args, rounds[i].resolution, rounds[i].reply)
  {
    hide ResolutionAfter, KeyOf, KeysIn, Answered;
    var n := |rounds| - 1;
    if i < n - 1 { EarlierRoundsFailed(c, rounds[..n], i); }
  }

  // ---------- What each round sends ----------

  lemma SentWithin(args: CallArgs, r: Resolution, sent: seq<T.Message>)
    requires r.Resolved? && Sends(args, r, sent)
    requires r.limits.chars.Some? ==> r.limits.chars.value > 0
    requires r.limits.tokens.Some? ==> r.limits.tokens.value > 0
    requires SizeOf(args, r.limits) == if r.truncate then T.TruncationRequested else T.Fits
    ensures WithinLimits(args, r, sent)
  {
    var messages := T.ToMessages(args.prompt, args.messages);
    var chars := T.Total(messages);
    hide T.Total, T.KeepsTail, T.Tokens;
    T.LimitsMet(r.limits, chars);
    var check := if r.truncate then T.TruncationRequested else T.Fits;
    if T.Trims(r.limits, check, chars) {
      var budget := T.Budget(r.limits).value;
      var first :| T.KeepsTail(messages, budget, first, sent);
      T.KeepsExactlyASuffix(messages, budget, first, sent);
    }
  }

  /** What is sent has the trimmed size: within the character limit always, within
      the token limit when it stands alone. */
  predicate WithinLimits(args: CallArgs, r: Resolution, sent: seq<T.Message>)
    requires r.Resolved?
  {
    var size := T.Total(sent);
    && size == T.Sent(r.limits, T.Total(T.ToMessages(args.prompt, args.messages)))
    && (r.limits.chars.Some? ==> size <= r.limits.chars.value)
    && (r.limits.tokens.Some? && r.limits.chars.None? ==> T.Tokens(size) <= r.limits.tokens.value)
  }

  /** Every round of every call sends messages within the limits it resolved to. */
  lemma {:induction false} RoundsWithinLimits(c: Call, rounds: seq<Round>, i: nat)
    requires IsRun(c, rounds) && i < |rounds|
    ensures rounds[i].resolution.Resolved? && WithinLimits(c.args, rounds[i].resolution, rounds[i].sent)
  {
    hide ResolveWith, Selected, Answered, Sends, WithinLimits, KeyOf, KeysIn, Bookings;
    var n := |rounds| - 1;
    LastJoins(c, rounds);
    if i < n {
      RoundsWithinLimits(c, rounds[..n], i);
    } else {
      var around := c.w.around(n);
      var done := rounds[..n];
      ResolutionShape(c.s, c.args,
        Selected(c.s, c.args, KeysIn(c.s, done), c.settings, c.before + Bookings(c.s, done, c.w), around));
      SentWithin(c.args, rounds[n].resolution, rounds[n].sent);
    }
  }

  // ---------- A misaligned run ----------

  /** One candidate without a model; its provider's default fills in. */
  const ITEM := RouteCandidate("p", "k", None, None, None, true)

  const UNLIMITED := LimitTable(map[], RawLimits(None, None))

  const CONF := ProviderConf("p", "p", true, None, None, [], T.Limits(None, None), UNLIMITED)

  const SETUP := Setup("c", Some(RouteConfig(true, [ITEM])), map["p" := CONF],
                       map["p" := ProviderSpec(Some("m"), T.Limits(None, None), UNLIMITED)], None, None, "")

  const ARGS := CallArgs(None, None, None, true, false, "hi", [])

  /** Every attempt is refused, at no candidate's lasting blame. */
  const REFUSING := World(
    _ => Surroundings(_ => 0.0, _ => false), _ => None, _ => None, _ => _ => Fail(InvalidRequest, false), _ => 0.0)

  const CALL := Call(SETUP, ARGS, H.Settings(0.0, 0.0, 0.0, 3, 0.0), [], REFUSING, RetryDefaults(None, 0.5, 8.0), true)

  const ROUND := Round(
    Resolved(Some(ITEM), Some("p"), Some("k"), Some("m"), T.Limits(None, None), false),
    [T.Message("user", "hi", 0)], 1, Fail(InvalidRequest, false))

  lemma ShortNames()
    ensures Normalize("p") == "p" && Normalize("k") == "k" && Normalize("c") == "c"
    ensures Strip("m") == "m" && Strip("") == ""
  {
    hide Normalize, Strip;
    PlainLetter('p');
    PlainLetter('k');
    PlainLetter('c');
    PlainLetter('m');
    assert Strip("") == "";
  }

  lemma RoundIsResolved()
    ensures ResolveWith(SETUP, ARGS, Some(ITEM)) == ROUND.resolution
  {
    ShortNames();
    hide Normalize, T.Total;
    assert Tables(Some(CONF), SETUP.specs["p"]) == [UNLIMITED, UNLIMITED];
    assert ContextLimits(Some(CONF), SETUP.specs["p"], Some("m")) == T.Limits(None, None) by {
      var two := [UNLIMITED, UNLIMITED];
      assert two[..1] == [UNLIMITED] && [UNLIMITED][..0] == [];
      assert ConsultedAll(T.Limits(None, None), [UNLIMITED], Some("m")) == T.Limits(None, None);
    }
  }

  lemma KeysDiffer()
    ensures FilterKey(SETUP, ITEM, CONF) == H.CandidateKey("c", "p", "k", "")
    ensures KeyOf(SETUP, ROUND.resolution) == Some(H.CandidateKey("c", "p", "k", "m"))
    ensures ConfOf(SETUP, "p") == Some(CONF)
  {
    ShortNames();
    hide Normalize, Strip;
  }

  lemma NeverBlamed(h: seq<H.Event>)
    requires h == [] || h == Booking(SETUP, ROUND, 0.0)
    ensures H.Available(CALL.settings, h, FilterCandidate(SETUP, ITEM, CONF), 0.0)
  {
    ShortNames();
    KeysDiffer();
    hide Normalize, Strip;
    var c := FilterCandidate(SETUP, ITEM, CONF);
    H.AvailableFresh(CALL.settings, c, 0.0);
    if h != [] {
      var e := h[0];
      assert h == [] + [e];
      H.FailureIsConfined(CALL.settings, [], e, c, 0.0);
    }
  }

  lemma PicksItem(excluded: set<H.CandidateKey>, h: seq<H.Event>)
    requires H.CandidateKey("c", "p", "k", "") !in excluded
    requires h == [] || h == Booking(SETUP, ROUND, 0.0)
    ensures Selected(SETUP, ARGS, excluded, CALL.settings, h, REFUSING.around(0)) == Some(ITEM)
  {
    hide H.Available, Booking, FilterKey, FilterCandidate, ConfOf;
    KeysDiffer();
    NeverBlamed(h);
    var around := REFUSING.around(0);
    FlagsAt(SETUP, excluded, CALL.settings, h, around, 1, 0);
    assert Eligible(SETUP, excluded, CALL.settings, h, around, 0);
  }

  lemma OneRound()
    ensures IsRun(CALL, [ROUND]) && GoesOn(CALL, [ROUND])
    ensures KeysIn(SETUP, [ROUND]) == {H.CandidateKey("c", "p", "k", "m")}
    ensures Bookings(SETUP, [ROUND], REFUSING) == Booking(SETUP, ROUND, 0.0)
  {
    hide ResolveWith, Selected, KeyOf, Booking, FilterKey, ConfOf;
    KeysDiffer();
    RoundIsResolved();
    PicksItem({}, []);
    RoundAnswered();
    StartRun(CALL);
    assert [ROUND][..0] == [];
    assert ResolutionAfter(CALL, []) == ROUND.resolution;
    assert Joins(CALL, [], ROUND);
  }

  lemma RoundAnswered()
    ensures Answered(CALL, ROUND, 0) && Answered(CALL, ROUND, 1) && Sends(ARGS, ROUND.resolution, ROUND.sent)
  {
  }

  /** Without alignment one candidate key can be tried twice: a candidate without a
      model of its own or its configuration's, behind a provider with a default. */
  lemma MisalignedRunRepeats()
    ensures IsRun(CALL, [ROUND, ROUND]) && Configured(SETUP)
    ensures KeyOf(SETUP, ROUND.resolution).Some? && KeyOf(SETUP, ROUND.resolution).value in KeysIn(SETUP, [ROUND])
  {
    hide ResolveWith, Selected, KeyOf, Booking, Bookings, KeysIn, FilterKey, ConfOf, GoesOn, Answered, Sends;
    OneRound();
    KeysDiffer();
    RoundIsResolved();
    RoundAnswered();
    PicksItem(KeysIn(SETUP, [ROUND]), Booking(SETUP, ROUND, 0.0));
    assert [ROUND, ROUND][..1] == [ROUND];
    assert [] + Booking(SETUP, ROUND, 0.0) == Booking(SETUP, ROUND, 0.0);
  }
}
