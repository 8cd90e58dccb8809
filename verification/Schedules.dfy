/** The retry schedule of a validated configuration, plugged into the queue protocol. */
module Schedules {
  import opened Wrappers
  import opened Backoff
  import opened Configuration
  import opened Protocol
  import opened Invariant
  import opened Spacing

  /** The target of a forwarding channel, with the delays `next_delay` computes. */
  function TargetOf(expectedStatus: nat, b: SafeBackoff): Target {
    Target(expectedStatus, b.max, (kind, attempts, retryAfter, unit) => WholeDelay(b, kind, attempts, retryAfter, unit))
  }

  /** The least and the most an unrequested transient failure waits; `attempts` counts it. */
  predicate WaitsWithinBand(b: ForwardBackoff, attempts: int, now: int, due: int) {
    now + Low(b, attempts) <= due <= now + High(b, attempts)
  }

  /** When a failure at `now` is due again: after the delay the target asked for, at most the
      ceiling; after the ceiling for a 4xx other than 408 and 429; and otherwise, a network
      error included, within the band around the schedule. */
  predicate IsDueAfter(b: ForwardBackoff, answer: Answer, attempts: int, now: int, due: int) {
    match answer
    case NetworkError => WaitsWithinBand(b, attempts, now, due)
    case Response(_, Some(requested)) => due == now + if requested <= b.max then requested else b.max
    case Response(status, None) =>
      if 400 <= status <= 499 && status != 408 && status != 429 then due == now + b.max
      else WaitsWithinBand(b, attempts, now, due)
  }

  lemma {:induction false} DueByAnswer(b: SafeBackoff, answer: Answer, attempts: int, unit: real, now: int)
    requires 0 <= now && now + b.max < TWO_TO_63
    ensures var delay := WholeDelay(b, KindOf(answer), attempts, RequestedDelay(answer), unit);
            IsDueAfter(b, answer, attempts, now, DueAt(now, delay))
  {
    WholeDelayIs(b, KindOf(answer), attempts, RequestedDelay(answer), unit);
  }

  predicate DistinctNames(channels: seq<ChannelConfig>) {
    forall i, j :: 0 <= i < j < |channels| ==> channels[i].name != channels[j].name
  }

  /** The schedules of all channels are such that their delays can be computed. */
  ghost predicate AreSafe(channels: seq<ChannelConfig>, defaults: BackoffDefaults) {
    forall i :: 0 <= i < |channels| && channels[i].forward.Some? ==>
      Accepted(Resolve(channels[i].forward.value, defaults))
          && Resolve(channels[i].forward.value, defaults).max < TWO_TO_63
  }

  /** Start-up validation succeeded, no two channels share a name, and until the time
      `until` no clock reading and ceiling add up to more than an `i64` holds. */
  ghost predicate Deployable(app: AppConfig, until: nat) {
    && FitsU64(app) && ValidateForwardBackoff(app).Success? && DistinctNames(app.channels)
    && forall i :: 0 <= i < |app.channels| && app.channels[i].forward.Some? ==>
         until + Resolve(app.channels[i].forward.value, app.forwardBackoff).max < TWO_TO_63
  }

  /** What validation accepts meets the hypotheses of the delay laws. */
  lemma {:induction false} DeployableIsSafe(app: AppConfig, until: nat)
    requires Deployable(app, until)
    ensures AreSafe(app.channels, app.forwardBackoff)
  {
    ValidationIsExact(app);
  }

  /** The `forward` block that a channel name stands for. */
  function ForwardingOf(channels: seq<ChannelConfig>, name: string): Option<ForwardConfig> {
    var found := FindChannelByName(channels, name);
    if found.Some? then found.value.forward else None
  }

  ghost predicate HasSchedule(target: Target, fwd: ForwardConfig, defaults: BackoffDefaults) {
    var b := Resolve(fwd, defaults);
    Accepted(b) && b.max < TWO_TO_63 && target == TargetOf(fwd.expectedStatus, b)
  }

  /** Forwarders run for exactly the channels that forward, each with its own schedule. */
  ghost predicate Serves(cfg: Config, app: AppConfig) {
    && (forall name :: name in cfg <==> ForwardingOf(app.channels, name).Some?)
    && forall name :: name in cfg ==> HasSchedule(cfg[name], ForwardingOf(app.channels, name).value, app.forwardBackoff)
  }

  /** The targets of the channels that forward. */
  function Targets(channels: seq<ChannelConfig>, defaults: BackoffDefaults): Config
    requires AreSafe(channels, defaults)
  {
    if channels == [] then map[]
    else
      assert AreSafe(channels[1..], defaults) by {
        assert forall i :: 0 <= i < |channels[1..]| ==> channels[1..][i] == channels[i + 1];
      }
      var ch, rest := channels[0], Targets(channels[1..], defaults);
      if ch.forward.None? then rest
      else rest[ch.name := TargetOf(ch.forward.value.expectedStatus, Resolve(ch.forward.value, defaults))]
  }

  /** The target has the channel's status and ceiling, and delays by the channel's own
      settings with the defaults in place of those it lacks. */
  ghost predicate IsTargetOf(target: Target, fwd: ForwardConfig, defaults: BackoffDefaults) {
    && target.expectedStatus == fwd.expectedStatus
    && exists b: SafeBackoff :: IsScheduleOf(b, fwd, defaults) && DelaysBy(target, b)
  }

  ghost predicate DelaysBy(target: Target, b: SafeBackoff) {
    && target.max == b.max
    && forall kind, attempts, retryAfter, unit ::
         target.delay(kind, attempts, retryAfter, unit) == WholeDelay(b, kind, attempts, retryAfter, unit)
  }

  lemma {:induction false} HasItsTarget(target: Target, fwd: ForwardConfig, defaults: BackoffDefaults)
    requires HasSchedule(target, fwd, defaults)
    ensures IsTargetOf(target, fwd, defaults)
  {
    var b: SafeBackoff := Resolve(fwd, defaults);
    ResolveIsExact(fwd, defaults, b);
    assert DelaysBy(target, b);
  }

  lemma {:induction false} TargetsServe(channels: seq<ChannelConfig>, defaults: BackoffDefaults, name: string)
    requires AreSafe(channels, defaults) && DistinctNames(channels)
    ensures var cfg := Targets(channels, defaults);
            && (name in cfg <==> ForwardingOf(channels, name).Some?)
            && (name in cfg ==> HasSchedule(cfg[name], ForwardingOf(channels, name).value, defaults))
            && (name in cfg ==> IsTargetOf(cfg[name], ForwardingOf(channels, name).value, defaults))
  {
    if channels != [] {
      var rest := channels[1..];
      assert forall i :: 0 <= i < |rest| ==> rest[i] == channels[i + 1];
      TargetsServe(rest, defaults, name);
      FindsTheFirst(rest, channels[0].name);
      var cfg := Targets(channels, defaults);
      if name in cfg {
        HasItsTarget(cfg[name], ForwardingOf(channels, name).value, defaults);
      }
    }
  }

  /** Every deployable configuration bounds its delays by the ceiling, so all guarantees of
      the protocol hold of it, and makes plain rejections wait for the ceiling. */
  lemma {:induction false} DeployedSchedulesAreBounded(cfg: Config, app: AppConfig)
    requires Serves(cfg, app)
    ensures Bounded(cfg)
    ensures forall c :: c in cfg ==> RejectionWaits(cfg[c]) && cfg[c].max > 0
  {
    forall c | c in cfg
      ensures RejectionWaits(cfg[c]) && cfg[c].max > 0
      ensures forall kind, attempts, retryAfter, unit :: cfg[c].delay(kind, attempts, retryAfter, unit) <= cfg[c].max
    {
      var b: SafeBackoff := Resolve(ForwardingOf(app.channels, c).value, app.forwardBackoff);
      forall attempts, unit ensures cfg[c].delay(Rejected, attempts, None, unit) == cfg[c].max {
        WholeDelayBounds(b, Rejected, attempts, unit);
      }
    }
  }

  /** And no due time it computes before `until` overflows. */
  lemma {:induction false} DeployedSchedulesFit(cfg: Config, app: AppConfig, until: nat)
    requires Serves(cfg, app) && Deployable(app, until)
    ensures FitsUntil(cfg, until)
  {
    forall c | c in cfg ensures until + cfg[c].max < TWO_TO_63 {
      FindsTheFirst(app.channels, c);
      var i :| 0 <= i < |app.channels| && FindChannelByName(app.channels, c) == Some(app.channels[i]);
    }
  }

  /** The documented spacing: without a requested delay, two attempts of the forwarder on
      a webhook lie at least the jittered exponential delay of that attempt apart, and a
      rejected webhook waits for the whole ceiling. */
  lemma {:induction false} DocumentedSpacing(cfg: Config, c: string, expectedStatus: nat, b: SafeBackoff,
                                             s: State, refusal: Action, acts: seq<Action>, id: nat)
    requires Bounded(cfg) && c in cfg && cfg[c] == TargetOf(expectedStatus, b) && s.clock + b.max < TWO_TO_63
    requires Inv(cfg, s) && RetryFree(s, id) && Carries(s, c, id)
    requires refusal.Respond? && refusal.who == Forwarder(c) && Enabled(cfg, s, refusal)
    requires !IsExpected(cfg[c], refusal.answer) && RequestedDelay(refusal.answer).None?
    requires IsRun(cfg, Apply(cfg, s, refusal), acts) && Undisturbed(acts, c, id)
    requires Enabled(cfg, Run(cfg, Apply(cfg, s, refusal), acts), Peek(c, Found(id)))
    ensures var k := FlightOf(s, Forwarder(c)).sent.attempts + 1;
            var now := Run(cfg, Apply(cfg, s, refusal), acts).loops[c].now;
            && s.clock + Low(b, k) <= now
            && (KindOf(refusal.answer) == Rejected ==> s.clock + b.max <= now)
  {
    AttemptsAreSpaced(cfg, s, refusal, acts, c, id);
    WholeDelayBounds(b, KindOf(refusal.answer), FlightOf(s, Forwarder(c)).sent.attempts + 1, refusal.unit);
  }
}
