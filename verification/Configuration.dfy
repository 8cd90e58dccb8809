/** Configuration of the channels and its start-up validation
    (src/lib/domain/config/model.rs). */
module Configuration {
  import opened Wrappers
  import opened Backoff

  datatype BackoffDefaults = BackoffDefaults(multiplier: real, maxSeconds: nat, jitter: real)

  datatype BackoffOverrides =
    BackoffOverrides(multiplier: Option<real>, maxSeconds: Option<nat>, jitter: Option<real>)

  datatype ForwardConfig = ForwardConfig(
    url: string, intervalSeconds: nat, expectedStatus: nat, timeoutSeconds: nat,
    signHeader: Option<string>, signSecret: Option<string>, signTemplate: Option<string>,
    backoff: Option<BackoffOverrides>)

  datatype SecretType = Plain | HmacSha256

  datatype ChannelConfig = ChannelConfig(
    name: string, webhookSecret: Option<string>, secretHeader: Option<string>, secretType: SecretType,
    secretExtractTemplate: Option<string>, secretSignTemplate: Option<string>,
    allowedIps: Option<seq<string>>, maxBodySize: Option<nat>, forward: Option<ForwardConfig>)

  datatype AppConfig = AppConfig(
    channels: seq<ChannelConfig>, defaultBodyLimit: nat, ignoredHeaders: seq<string>,
    forwardBackoff: BackoffDefaults)

  datatype ConfigError =
    | MultiplierBelowOne
    | MaxSecondsZero
    | JitterOutOfRange
    | IntervalZero(channel: string)
    | MaxBelowInterval(channel: string)
    | SecretMissing(channel: string)
    | SecretHeaderMissing(channel: string)
    | SignSecretMissing(channel: string)
    | SignHeaderMissing(channel: string)
    | BadTemplate(channel: string)

  type Validation = Result<(), ConfigError>

  function GetOr<T>(o: Option<T>, default: T): T {
    match o case Some(value) => value case None => default
  }

  /** The schedule of a channel: its interval, and its overrides over the defaults. */
  function Resolve(fwd: ForwardConfig, defaults: BackoffDefaults): ForwardBackoff {
    var o := GetOr(fwd.backoff, BackoffOverrides(None, None, None));
    ForwardBackoff(fwd.intervalSeconds, GetOr(o.multiplier, defaults.multiplier),
                   GetOr(o.maxSeconds, defaults.maxSeconds), GetOr(o.jitter, defaults.jitter))
  }

  /** Each setting is the channel's own if it has one and the default otherwise; the base is
      always the interval. */
  predicate IsScheduleOf(b: ForwardBackoff, fwd: ForwardConfig, defaults: BackoffDefaults) {
    && b.base == fwd.intervalSeconds
    && match fwd.backoff
       case None =>
         b.multiplier == defaults.multiplier && b.max == defaults.maxSeconds && b.jitter == defaults.jitter
       case Some(own) =>
         && (own.multiplier.Some? ==> b.multiplier == own.multiplier.value)
         && (own.multiplier.None? ==> b.multiplier == defaults.multiplier)
         && (own.maxSeconds.Some? ==> b.max == own.maxSeconds.value)
         && (own.maxSeconds.None? ==> b.max == defaults.maxSeconds)
         && (own.jitter.Some? ==> b.jitter == own.jitter.value)
         && (own.jitter.None? ==> b.jitter == defaults.jitter)
  }

  lemma {:induction false} ResolveIsExact(fwd: ForwardConfig, defaults: BackoffDefaults, b: ForwardBackoff)
    ensures Resolve(fwd, defaults) == b <==> IsScheduleOf(b, fwd, defaults)
  {
  }

  // ---- the retry schedule ----

  function CheckBackoffValues(multiplier: real, maxSeconds: nat, jitter: real): Validation {
    if multiplier < 1.0 then Failure(MultiplierBelowOne)
    else if maxSeconds == 0 then Failure(MaxSecondsZero)
    else if !(0.0 <= jitter <= 1.0) then Failure(JitterOutOfRange)
    else Success(())
  }

  function CheckChannel(ch: ChannelConfig, defaults: BackoffDefaults): Validation {
    if ch.forward.None? then Success(())
    else
      var fwd := ch.forward.value;
      if fwd.intervalSeconds == 0 then Failure(IntervalZero(ch.name))
      else
        var b := Resolve(fwd, defaults);
        var _ :- CheckBackoffValues(b.multiplier, b.max, b.jitter);
        if b.max < fwd.intervalSeconds then Failure(MaxBelowInterval(ch.name)) else Success(())
  }

  function CheckChannels(channels: seq<ChannelConfig>, defaults: BackoffDefaults): Validation {
    if channels == [] then Success(())
    else
      var _ :- CheckChannel(channels[0], defaults);
      CheckChannels(channels[1..], defaults)
  }

  function ValidateForwardBackoff(app: AppConfig): Validation {
    var d := app.forwardBackoff;
    var _ :- CheckBackoffValues(d.multiplier, d.maxSeconds, d.jitter);
    CheckChannels(app.channels, d)
  }

  /** What a `u64` field can hold. */
  ghost predicate FitsU64(app: AppConfig) {
    && app.forwardBackoff.maxSeconds < TWO_TO_64
    && forall i :: 0 <= i < |app.channels| && app.channels[i].forward.Some? ==>
         Resolve(app.channels[i].forward.value, app.forwardBackoff).max < TWO_TO_64
  }

  lemma {:induction false} ChannelsAreExact(channels: seq<ChannelConfig>, defaults: BackoffDefaults)
    ensures CheckChannels(channels, defaults).Success?
       <==> forall i :: 0 <= i < |channels| ==> CheckChannel(channels[i], defaults).Success?
  {
    if channels != [] {
      ChannelsAreExact(channels[1..], defaults);
      if CheckChannels(channels, defaults).Success? {
        forall i | 0 <= i < |channels| ensures CheckChannel(channels[i], defaults).Success? {
          assert i > 0 ==> channels[i] == channels[1..][i - 1];
        }
      } else if CheckChannel(channels[0], defaults).Success? {
        var i :| 0 <= i < |channels[1..]| && !CheckChannel(channels[1..][i], defaults).Success?;
        assert channels[1..][i] == channels[i + 1];
      }
    }
  }

  /** Start-up accepts a configuration exactly when the defaults are sane and every
      forwarding channel's own settings, or the defaults in their place, meet the hypotheses
      of the delay laws. */
  lemma {:induction false} ValidationIsExact(app: AppConfig)
    requires FitsU64(app)
    ensures var d := app.forwardBackoff;
            ValidateForwardBackoff(app).Success? <==>
              && 1.0 <= d.multiplier && 1 <= d.maxSeconds && 0.0 <= d.jitter <= 1.0
              && forall i :: 0 <= i < |app.channels| && app.channels[i].forward.Some? ==>
                   exists b :: IsScheduleOf(b, app.channels[i].forward.value, d) && Accepted(b)
  {
    var d := app.forwardBackoff;
    ChannelsAreExact(app.channels, d);
    forall i | 0 <= i < |app.channels| && app.channels[i].forward.Some?
      ensures CheckChannel(app.channels[i], d).Success?
         <==> exists b :: IsScheduleOf(b, app.channels[i].forward.value, d) && Accepted(b)
    {
      ChannelIsExact(app.channels[i], d);
    }
  }

  lemma {:induction false} ChannelIsExact(ch: ChannelConfig, defaults: BackoffDefaults)
    requires ch.forward.Some? && Resolve(ch.forward.value, defaults).max < TWO_TO_64
    ensures CheckChannel(ch, defaults).Success?
       <==> exists b :: IsScheduleOf(b, ch.forward.value, defaults) && Accepted(b)
  {
    var b := Resolve(ch.forward.value, defaults);
    ResolveIsExact(ch.forward.value, defaults, b);
    if b' :| IsScheduleOf(b', ch.forward.value, defaults) && Accepted(b') {
      ResolveIsExact(ch.forward.value, defaults, b');
    }
  }

  /** An override that is out of range is refused, whatever the defaults. */
  lemma {:induction false} BadOverrideIsRefused(app: AppConfig, i: nat, own: BackoffOverrides)
    requires FitsU64(app) && i < |app.channels| && app.channels[i].forward.Some?
    requires app.channels[i].forward.value.backoff == Some(own)
    requires || (own.multiplier.Some? && own.multiplier.value < 1.0)
             || (own.jitter.Some? && !(0.0 <= own.jitter.value <= 1.0))
             || (own.maxSeconds.Some? && own.maxSeconds.value < app.channels[i].forward.value.intervalSeconds)
    ensures ValidateForwardBackoff(app).Failure?
  {
    ValidationIsExact(app);
  }

  // ---- secrets and templates ----

  /** `compiles` is the template engine's verdict. */
  function CheckTemplate(template: Option<string>, compiles: string -> bool, channel: string): Validation {
    if template.Some? && !compiles(template.value) then Failure(BadTemplate(channel)) else Success(())
  }

  function CheckSecret(ch: ChannelConfig): Validation {
    if ch.secretType != HmacSha256 then Success(())
    else if ch.webhookSecret.None? then Failure(SecretMissing(ch.name))
    else if ch.secretHeader.None? then Failure(SecretHeaderMissing(ch.name))
    else Success(())
  }

  function CheckSigning(ch: ChannelConfig, fwd: ForwardConfig, compiles: string -> bool): Validation {
    if fwd.signHeader.Some? && fwd.signSecret.None? && ch.webhookSecret.None? then Failure(SignSecretMissing(ch.name))
    else if fwd.signHeader.None? && fwd.signSecret.Some? then Failure(SignHeaderMissing(ch.name))
    else CheckTemplate(fwd.signTemplate, compiles, ch.name)
  }

  function CheckTemplates(ch: ChannelConfig, compiles: string -> bool): Validation {
    var _ :- CheckSecret(ch);
    var _ :- CheckTemplate(ch.secretExtractTemplate, compiles, ch.name);
    var _ :- CheckTemplate(ch.secretSignTemplate, compiles, ch.name);
    if ch.forward.Some? then CheckSigning(ch, ch.forward.value, compiles) else Success(())
  }

  /** `validate_templates` over the channels, stopping at the first error. */
  function ValidateTemplates(channels: seq<ChannelConfig>, compiles: string -> bool): Validation {
    if channels == [] then Success(())
    else
      var _ :- CheckTemplates(channels[0], compiles);
      ValidateTemplates(channels[1..], compiles)
  }

  /** The secret a forwarded request is signed with. */
  function EffectiveSecret(ch: ChannelConfig, fwd: ForwardConfig): Option<string> {
    if fwd.signSecret.Some? then fwd.signSecret else ch.webhookSecret
  }

  /** What the templates, secrets and headers of a channel have to be for it to start. */
  predicate IsServable(ch: ChannelConfig, compiles: string -> bool) {
    && (ch.secretType == HmacSha256 ==> ch.webhookSecret.Some? && ch.secretHeader.Some?)
    && (ch.secretExtractTemplate.Some? ==> compiles(ch.secretExtractTemplate.value))
    && (ch.secretSignTemplate.Some? ==> compiles(ch.secretSignTemplate.value))
    && (ch.forward.Some? ==>
          var fwd := ch.forward.value;
          && (fwd.signHeader.Some? ==> fwd.signSecret.Some? || ch.webhookSecret.Some?)
          && (fwd.signSecret.Some? ==> fwd.signHeader.Some?)
          && (fwd.signTemplate.Some? ==> compiles(fwd.signTemplate.value)))
  }

  /** Validation passes exactly if every channel that signs has a secret, every sign secret a
      header to go in, every HMAC channel what it needs to verify, and every template compiles. */
  lemma {:induction false} TemplateValidationIsExact(channels: seq<ChannelConfig>, compiles: string -> bool)
    ensures ValidateTemplates(channels, compiles).Success?
       <==> forall i :: 0 <= i < |channels| ==> IsServable(channels[i], compiles)
  {
    if channels != [] {
      var rest := channels[1..];
      TemplateValidationIsExact(rest, compiles);
      assert CheckTemplates(channels[0], compiles).Success? <==> IsServable(channels[0], compiles);
      assert forall i :: 0 < i < |channels| ==> channels[i] == rest[i - 1];
      assert forall i :: 0 <= i < |rest| ==> rest[i] == channels[i + 1];
    }
  }

  // ---- look-ups ----

  function FindChannelByName(channels: seq<ChannelConfig>, name: string): Option<ChannelConfig> {
    if channels == [] then None
    else if channels[0].name == name then Some(channels[0])
    else FindChannelByName(channels[1..], name)
  }

  /** The first channel of that name is found, and one is found if there is any. */
  lemma {:induction false} FindsTheFirst(channels: seq<ChannelConfig>, name: string)
    ensures FindChannelByName(channels, name).None? <==> forall i :: 0 <= i < |channels| ==> channels[i].name != name
    ensures FindChannelByName(channels, name).Some? ==>
              exists i :: 0 <= i < |channels| && FindChannelByName(channels, name) == Some(channels[i])
                          && channels[i].name == name && forall j :: 0 <= j < i ==> channels[j].name != name
  {
    if channels != [] && channels[0].name != name {
      var rest := channels[1..];
      FindsTheFirst(rest, name);
      assert forall i :: 0 < i < |channels| ==> channels[i] == rest[i - 1];
      if FindChannelByName(rest, name).Some? {
        var i :| 0 <= i < |rest| && FindChannelByName(rest, name) == Some(rest[i])
                 && rest[i].name == name && forall j :: 0 <= j < i ==> rest[j].name != name;
        assert channels[i + 1] == rest[i];
      }
    }
  }

  /** `covers` says whether an entry matches the client's address. */
  predicate IsIpAllowed(ch: ChannelConfig, covers: string -> bool) {
    ch.allowedIps.None? || exists i :: 0 <= i < |ch.allowedIps.value| && covers(ch.allowedIps.value[i])
  }

  function Ignored(app: AppConfig): set<string> {
    set name | name in app.ignoredHeaders
  }

  // ---- body limits ----

  function EffectiveLimit(ch: ChannelConfig, default: nat): nat {
    GetOr(ch.maxBodySize, default)
  }

  function LargestLimit(channels: seq<ChannelConfig>, default: nat): nat {
    if channels == [] then default
    else
      var rest := LargestLimit(channels[1..], default);
      var own := GetOr(channels[0].maxBodySize, rest);
      if rest < own then own else rest
  }

  /** The limit in front of all routes. */
  function MaxBodyLimit(app: AppConfig): nat {
    LargestLimit(app.channels, app.defaultBodyLimit)
  }

  lemma {:induction false} LargestLimitIsExact(channels: seq<ChannelConfig>, default: nat, size: nat)
    ensures size <= LargestLimit(channels, default)
       <==> size <= default
            || exists i :: 0 <= i < |channels| && channels[i].maxBodySize.Some? && size <= channels[i].maxBodySize.value
  {
    if channels != [] {
      var rest := channels[1..];
      LargestLimitIsExact(rest, default, size);
      if i :| 0 <= i < |channels| && channels[i].maxBodySize.Some? && size <= channels[i].maxBodySize.value {
        assert i > 0 ==> channels[i] == rest[i - 1];
      }
      if i :| 0 <= i < |rest| && rest[i].maxBodySize.Some? && size <= rest[i].maxBodySize.value {
        assert channels[i + 1] == rest[i];
      }
    }
  }

  /** The common limit lets through whatever the default or some channel's own limit accepts,
      and not more. */
  lemma {:induction false} MaxBodyLimitIsExact(app: AppConfig, size: nat)
    ensures size <= MaxBodyLimit(app)
       <==> size <= app.defaultBodyLimit
            || exists i :: 0 <= i < |app.channels| && app.channels[i].maxBodySize.Some?
                           && size <= app.channels[i].maxBodySize.value
  {
    LargestLimitIsExact(app.channels, app.defaultBodyLimit, size);
  }
}
