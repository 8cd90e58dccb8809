/** Start-up (src/bin/kwp/main.rs), and what the running code then keeps to. */
module Startup {
  import opened Wrappers
  import opened Backoff
  import opened Configuration
  import opened Webhooks
  import opened Protocol
  import opened Invariant
  import opened Guarantees
  import opened Spacing
  import opened Schedules
  import opened Requests
  import opened Process
  import opened Forwarding
  import opened Routes

  /** The forwarder runs the channel with everything the configuration says of it. */
  ghost predicate RunsChannel(f: Forwarder, app: AppConfig, ch: ChannelConfig, crypto: Crypto) {
    && ch.forward.Some? && f.channel == ch.name && f.config == ch && f.cfg == ch.forward.value
    && IsScheduleOf(f.backoff, ch.forward.value, app.forwardBackoff)
    && (forall name :: name in f.ignored <==> name in app.ignoredHeaders) && f.crypto == crypto
  }

  /** Exactly the channels before the `n`-th that forward have a forwarder, each one. */
  ghost predicate Spawned(forwarders: seq<Forwarder>, app: AppConfig, n: nat, crypto: Crypto)
    requires n <= |app.channels|
  {
    if n == 0 then forwarders == []
    else if app.channels[n - 1].forward.None? then Spawned(forwarders, app, n - 1, crypto)
    else
      && forwarders != []
      && RunsChannel(forwarders[|forwarders| - 1], app, app.channels[n - 1], crypto)
      && Spawned(forwarders[..|forwarders| - 1], app, n - 1, crypto)
  }

  /** All of them run on the same table, statuses and clock. */
  ghost predicate Share(forwarders: seq<Forwarder>, shared: Shared) {
    forall f :: f in forwarders ==> f.shared == shared && f.Configured()
  }

  lemma {:induction false} SpawnsNext(forwarders: seq<Forwarder>, f: Forwarder, shared: Shared, app: AppConfig, n: nat,
                                      crypto: Crypto)
    requires n < |app.channels| && Spawned(forwarders, app, n, crypto) && Share(forwarders, shared)
    requires RunsChannel(f, app, app.channels[n], crypto) && f.shared == shared && f.Configured()
    ensures Spawned(forwarders + [f], app, n + 1, crypto) && Share(forwarders + [f], shared)
  {
    assert (forwarders + [f])[..|forwarders|] == forwarders;
  }

  /** `spawn_forwarders`: one forwarder, in order, for every channel that forwards, all on
      the same table, statuses and clock. */
  method SpawnForwarders(app: AppConfig, crypto: Crypto, now: nat, ghost until: nat)
    returns (shared: Shared, forwarders: seq<Forwarder>)
    requires Deployable(app, until)
    ensures shared.Valid() && shared.trace == [] && Serves(shared.cfg, app)
    ensures Spawned(forwarders, app, |app.channels|, crypto) && Share(forwarders, shared)
  {
    DeployableIsSafe(app, until);
    AllServed(app);
    DeployedSchedulesAreBounded(Targets(app.channels, app.forwardBackoff), app);
    shared := new Shared(Targets(app.channels, app.forwardBackoff), now);
    forwarders := SpawnAll(shared, app, crypto);
  }

  method SpawnAll(shared: Shared, app: AppConfig, crypto: Crypto) returns (forwarders: seq<Forwarder>)
    requires shared.Valid() && Bounded(shared.cfg) && Serves(shared.cfg, app) && DistinctNames(app.channels)
    ensures Spawned(forwarders, app, |app.channels|, crypto) && Share(forwarders, shared)
  {
    forwarders := [];
    for i := 0 to |app.channels|
      invariant shared.Valid() && Spawned(forwarders, app, i, crypto) && Share(forwarders, shared)
    {
      if app.channels[i].forward.Some? {
        var f := SpawnForwarder(shared, app, i, crypto);
        SpawnsNext(forwarders, f, shared, app, i, crypto);
        forwarders := forwarders + [f];
      }
    }
  }

  method SpawnForwarder(shared: Shared, app: AppConfig, i: nat, crypto: Crypto) returns (f: Forwarder)
    requires shared.Valid() && Bounded(shared.cfg) && Serves(shared.cfg, app) && DistinctNames(app.channels)
    requires i < |app.channels| && app.channels[i].forward.Some?
    ensures f.shared == shared && f.Configured() && RunsChannel(f, app, app.channels[i], crypto)
  {
    var ch, fwd := app.channels[i], app.channels[i].forward.value;
    FindsItself(app.channels, i);
    assert HasSchedule(shared.cfg[ch.name], fwd, app.forwardBackoff);
    f := new Forwarder(shared, ch, fwd, Resolve(fwd, app.forwardBackoff), Ignored(app), crypto);
    ResolveIsExact(fwd, app.forwardBackoff, f.backoff);
  }

  lemma {:induction false} AllServed(app: AppConfig)
    requires AreSafe(app.channels, app.forwardBackoff) && DistinctNames(app.channels)
    ensures Serves(Targets(app.channels, app.forwardBackoff), app)
  {
    var cfg := Targets(app.channels, app.forwardBackoff);
    forall name
      ensures name in cfg <==> ForwardingOf(app.channels, name).Some?
      ensures name in cfg ==> HasSchedule(cfg[name], ForwardingOf(app.channels, name).value, app.forwardBackoff)
    {
      TargetsServe(app.channels, app.forwardBackoff, name);
    }
  }

  lemma {:induction false} FindsItself(channels: seq<ChannelConfig>, i: nat)
    requires DistinctNames(channels) && i < |channels|
    ensures FindChannelByName(channels, channels[i].name) == Some(channels[i])
  {
    FindsTheFirst(channels, channels[i].name);
  }

  // ---- what the deployed code keeps to ----

  /** Whatever the deployed code has done, a webhook it answered 200 is in the table with the
      content it was received with and parked no later than its ceiling allows, or one step
      of the run took it out; and its deliveries are bounded. */
  lemma {:induction false} DeployedCodeConserves(shared: Shared, app: AppConfig, id: nat, content: Content)
    requires shared.Valid() && Serves(shared.cfg, app) && Receive(id, content) in shared.trace
    ensures id in shared.db.rows ==>
              && shared.db.rows[id].content == content
              && RowInv(shared.cfg, shared.db.rows[id], shared.model.recorded[id], shared.clock)
    ensures id !in shared.db.rows ==>
              id in shared.model.gone && id in shared.model.received && Explained(shared.model, shared.trace, id)
    ensures shared.model.forwarded[id] + |AcceptedRetriesOf(shared.model, id)|
         <= 1 + shared.model.failedDeletes[id] + shared.model.restarts + |RetriesOf(shared.model, id)|
  {
    DeployedSchedulesAreBounded(shared.cfg, app);
    CodeConservesWebhooks(shared, id, content);
    CodeBoundsDuplicates(shared, id);
  }

  /** The state after the first steps of what the code has done. */
  ghost function After(shared: Shared, acts: seq<Action>): State
    requires shared.Valid() && acts <= shared.trace
    reads shared, shared.db
  {
    PrefixRuns(shared, acts, shared.trace[|acts|..]);
    Run(shared.cfg, Initial(shared.cfg, shared.start), acts)
  }

  lemma {:induction false} PrefixRuns(shared: Shared, acts: seq<Action>, more: seq<Action>)
    requires shared.Valid() && acts + more <= shared.trace
    ensures var s := Initial(shared.cfg, shared.start);
            IsRun(shared.cfg, s, acts) && IsRun(shared.cfg, Run(shared.cfg, s, acts), more)
            && IsRun(shared.cfg, s, acts + more)
            && Run(shared.cfg, s, acts + more) == Run(shared.cfg, Run(shared.cfg, s, acts), more)
            && Run(shared.cfg, s, acts).clock <= Run(shared.cfg, s, acts + more).clock <= shared.clock
  {
    var s, rest := Initial(shared.cfg, shared.start), shared.trace[|acts + more|..];
    assert shared.trace == acts + more + rest;
    RunSplits(shared.cfg, s, acts + more, rest);
    RunSplits(shared.cfg, s, acts, more);
    ClockGrows(shared.cfg, Run(shared.cfg, s, acts), more);
    ClockGrows(shared.cfg, Run(shared.cfg, s, acts + more), rest);
  }

  lemma {:induction false} SpacedSteps(cfg: Config, c: string, expectedStatus: nat, b: SafeBackoff,
                                       s: State, refusal: Action, between: seq<Action>, id: nat)
    requires Bounded(cfg) && c in cfg && cfg[c] == TargetOf(expectedStatus, b) && s.clock + b.max < TWO_TO_63
    requires Inv(cfg, s) && RetryFree(s, id) && Carries(s, c, id)
    requires refusal.Respond? && refusal.who == Forwarder(c) && IsRun(cfg, s, [refusal])
    requires !IsExpected(cfg[c], refusal.answer) && RequestedDelay(refusal.answer).None?
    requires IsRun(cfg, Run(cfg, s, [refusal]), between) && Undisturbed(between, c, id)
    requires IsRun(cfg, Run(cfg, Run(cfg, s, [refusal]), between), [Peek(c, Found(id))])
    ensures var again := Run(cfg, Run(cfg, s, [refusal]), between);
            && c in again.loops && again.loops[c].Peeking?
            && s.clock + Low(b, FlightOf(s, Forwarder(c)).sent.attempts + 1) <= again.loops[c].now
  {
    RunOfOne(cfg, s, refusal);
    DocumentedSpacing(cfg, c, expectedStatus, b, s, refusal, between, id);
  }

  lemma {:induction false} CodeSpacesAttempts(shared: Shared, c: string, expectedStatus: nat, b: SafeBackoff, id: nat,
                                              before: seq<Action>, refusal: Action, between: seq<Action>)
    requires shared.Valid() && before + [refusal] + between + [Peek(c, Found(id))] <= shared.trace
    requires Bounded(shared.cfg) && c in shared.cfg && shared.cfg[c] == TargetOf(expectedStatus, b)
    requires shared.clock + b.max < TWO_TO_63 && Undisturbed(between, c, id)
    requires refusal.Respond? && refusal.who == Forwarder(c) && RequestedDelay(refusal.answer).None?
    requires Carries(After(shared, before), c, id) && RetryFree(After(shared, before), id)
    requires !IsExpected(shared.cfg[c], refusal.answer)
    ensures var s, again := After(shared, before), After(shared, before + [refusal] + between);
            && c in again.loops && again.loops[c].Peeking?
            && s.clock + Low(b, FlightOf(s, Forwarder(c)).sent.attempts + 1) <= again.loops[c].now
  {
    PrefixRuns(shared, before + [refusal] + between, [Peek(c, Found(id))]);
    PrefixRuns(shared, before + [refusal], between);
    PrefixRuns(shared, before, [refusal]);
    InitialInv(shared.cfg, shared.start);
    RunKeepsInv(shared.cfg, Initial(shared.cfg, shared.start), before);
    SpacedSteps(shared.cfg, c, expectedStatus, b, After(shared, before), refusal, between, id);
  }

  /** Between an answer that refused a webhook and the pass that next sends it, in whatever
      way the tasks of the deployed code were interleaved, lies the delay documented for
      that attempt, as long as the clock has not passed `until`. */
  lemma {:induction false} DeployedCodeSpacesAttempts(shared: Shared, app: AppConfig, until: nat, c: string, id: nat,
                                                      before: seq<Action>, refusal: Action, between: seq<Action>)
    requires shared.Valid() && before + [refusal] + between + [Peek(c, Found(id))] <= shared.trace
    requires Serves(shared.cfg, app) && Deployable(app, until) && shared.clock <= until
    requires refusal.Respond? && refusal.who == Forwarder(c) && RequestedDelay(refusal.answer).None?
    requires Carries(After(shared, before), c, id) && RetryFree(After(shared, before), id)
    requires c in shared.cfg && !IsExpected(shared.cfg[c], refusal.answer) && Undisturbed(between, c, id)
    ensures var s, again := After(shared, before), After(shared, before + [refusal] + between);
            && c in again.loops && again.loops[c].Peeking?
            && forall b :: IsScheduleOf(b, ForwardingOf(app.channels, c).value, app.forwardBackoff) ==>
                 s.clock + Low(b, FlightOf(s, Forwarder(c)).sent.attempts + 1) <= again.loops[c].now
  {
    var fwd := ForwardingOf(app.channels, c).value;
    DeployedSchedulesAreBounded(shared.cfg, app);
    DeployedSchedulesFit(shared.cfg, app, until);
    CodeSpacesAttempts(shared, c, fwd.expectedStatus, Resolve(fwd, app.forwardBackoff), id, before, refusal, between);
    forall b | IsScheduleOf(b, fwd, app.forwardBackoff) ensures b == Resolve(fwd, app.forwardBackoff) {
      ResolveIsExact(fwd, app.forwardBackoff, b);
    }
  }
}
