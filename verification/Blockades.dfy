/** A blockade: a few failing webhooks of a channel take all its passes while a younger one
    is due. What it is in terms of runs, and what every run makes of its order of picks. */
module Blockades {
  import opened Backoff
  import opened Protocol
  import opened Invariant
  import opened Spacing
  import opened Fairness
  import opened Schedules
  import opened Picks

  /** Which answers the target gives: rejections without a requested delay, any failures
      without one, or any failures at all. */
  datatype Refusals = Rejections | Unrequested | AnyFailures

  predicate Permits(refusals: Refusals, target: Target, answer: Answer) {
    && !IsExpected(target, answer)
    && match refusals
       case Rejections => IsRejection(target, answer)
       case Unrequested => RequestedDelay(answer).None?
       case AnyFailures => true
  }

  /** The least delay after a failure, by its number. */
  function LeastDelay(b: ForwardBackoff, refusals: Refusals): Least {
    match refusals
    case Rejections => (failures: nat) => b.max
    case Unrequested => (failures: nat) => Low(b, failures)
    case AnyFailures => (failures: nat) => 0
  }

  /** How a pass may come to nothing: the process dies, or a request is not built or its
      outcome not written. */
  datatype Faults = Deaths | FailedWrites | AnyFaults

  /** The rivals are to take every pass of the channel, `gap` seconds after the one before. */
  datatype Blockade =
    Blockade(channel: string, rivals: set<nat>, younger: nat, gap: nat, refusals: Refusals, faults: Faults)

  predicate Fails(a: Action, c: string) {
    Slips(c, a) || a.Restart?
  }

  predicate Tolerates(faults: Faults, a: Action) {
    match faults
    case Deaths => a.Restart?
    case FailedWrites => !a.Restart?
    case AnyFaults => true
  }

  /** The younger webhook has never been tried, is due, and was received after the rival. */
  ghost predicate Waiting(s: State, k: Blockade, rival: nat) {
    && rival in s.table.rows && k.younger in s.table.rows
    && s.table.rows[k.younger].content.channel == k.channel && s.table.rows[k.younger].nextAt.None?
    && s.table.rows[rival].content.receivedAt < s.table.rows[k.younger].content.receivedAt
  }

  /** One step that keeps the blockade up. Nobody retries a rival by hand. */
  ghost predicate Upholds(cfg: Config, s: State, a: Action, k: Blockade, picks: seq<Pick>)
    requires Enabled(cfg, s, a) && k.channel in cfg
  {
    && (a.Load? ==> a.id !in k.rivals) && (Fails(a, k.channel) ==> Tolerates(k.faults, a))
    && (a.Receive? && a.id in k.rivals ==> a.content.channel == k.channel)
    && (Passes(a, k.channel) ==>
          && a.peeked.Found? && a.peeked.id in k.rivals && Waiting(s, k, a.peeked.id)
          && (picks != [] ==> s.loops[k.channel].now == picks[|picks| - 1].at + k.gap))
    && (a.Respond? && a.who == Forwarder(k.channel) ==> Permits(k.refusals, cfg[k.channel], a.answer))
  }

  /** A failure of the channel was recorded. */
  predicate Records(a: Action, c: string) {
    a.Park? && a.who == Forwarder(c) && a.ok
  }

  /** The order of picks after a step. */
  function NextPicks(s: State, a: Action, c: string, picks: seq<Pick>): seq<Pick> {
    if Passes(a, c) && a.peeked.Found? && c in s.loops && s.loops[c].Peeking? then
      picks + [Pick(a.peeked.id, s.loops[c].now, false)]
    else if Records(a, c) && picks != [] then Mark(picks)
    else picks
  }

  ghost predicate Upheld(cfg: Config, s: State, acts: seq<Action>, k: Blockade, picks: seq<Pick>)
    requires k.channel in cfg
    decreases |acts|
  {
    acts == [] ||
    (Enabled(cfg, s, acts[0]) && Upholds(cfg, s, acts[0], k, picks) &&
     Upheld(cfg, Apply(cfg, s, acts[0]), acts[1..], k, NextPicks(s, acts[0], k.channel, picks)))
  }

  function FailCount(acts: seq<Action>, c: string): nat {
    if acts == [] then 0 else (if Fails(acts[0], c) then 1 else 0) + FailCount(acts[1..], c)
  }

  /** A run that keeps the blockade up over `n` passes, of which at most `fails` come to
      nothing, before due times overflow. */
  ghost predicate Goes(cfg: Config, s: State, acts: seq<Action>, k: Blockade, picks: seq<Pick>, n: nat, fails: nat,
                       until: nat)
    requires k.channel in cfg
  {
    && IsRun(cfg, s, acts) && Upheld(cfg, s, acts, k, picks)
    && PassCount(acts, k.channel) == n && FailCount(acts, k.channel) <= fails
    && Run(cfg, s, acts).clock <= until
  }

  /** What a blockade is made of: at most `size` webhooks, passes `gap` seconds apart, of
      which at most `fails` come to nothing. */
  datatype Plan = Plan(size: nat, gap: nat, refusals: Refusals, faults: Faults, fails: nat)

  /** From an empty table on, some interleaving lets the webhooks take `n` passes in a row
      while a younger one is due all along. */
  ghost predicate CanBlock(cfg: Config, clock: nat, c: string, plan: Plan, n: nat)
    requires c in cfg
  {
    exists acts, rivals: set<nat>, younger, until: nat ::
      && |rivals| <= plan.size && until + cfg[c].max < TWO_TO_63
      && Goes(cfg, Initial(cfg, clock), acts, Blockade(c, rivals, younger, plan.gap, plan.refusals, plan.faults), [],
              n, plan.fails, until)
  }

  // ---- what a run knows of a rival ----

  ghost predicate Known(s: State, k: Blockade, id: nat) {
    (id in s.received ==> s.received[id].channel == k.channel) && RetryFree(s, id)
  }

  /** Its row counts the recorded failures and shows the delay of the last one. */
  ghost predicate RowShows(s: State, id: nat, picks: seq<Pick>, least: Least) {
    && (id !in s.received ==> Failures(picks, id) == 0)
    && (id in s.table.rows ==>
          && s.table.rows[id].attempts == Failures(picks, id)
          && (Failures(picks, id) > 0 ==>
                && s.table.rows[id].nextAt.Some?
                && LastFailure(picks, id) + least(Failures(picks, id)) <= s.table.rows[id].nextAt.value))
  }

  /** A rival in flight is the last one picked. */
  ghost predicate InHand(s: State, c: string, id: nat, picks: seq<Pick>, least: Least) {
    Carries(s, c, id) ==>
      var f := FlightOf(s, Forwarder(c));
      && picks != [] && picks[|picks| - 1].id == id && !picks[|picks| - 1].recorded
      && picks[|picks| - 1].at <= s.clock && !f.Delivered? && f.sent.attempts == Failures(picks, id)
      && (f.Refused? ==> picks[|picks| - 1].at + least(f.sent.attempts + 1) <= f.nextAt)
  }

  ghost predicate Tracks(s: State, k: Blockade, id: nat, picks: seq<Pick>, least: Least) {
    Known(s, k, id) && RowShows(s, id, picks, least) && InHand(s, k.channel, id, picks, least)
  }

  lemma {:induction false} KnownStep(cfg: Config, s: State, a: Action, k: Blockade, picks: seq<Pick>, id: nat)
    requires k.channel in cfg && Enabled(cfg, s, a) && Upholds(cfg, s, a, k, picks) && id in k.rivals
    requires ActorInv(cfg, s, a) && StoredInv(s, id) && Known(s, k, id)
    ensures Known(Apply(cfg, s, a), k, id)
  {
    StoredStep(cfg, s, a, id);
    if a.Restart? {
      assert Apply(cfg, s, a).flights == map[];
    } else {
      RetryFreeStep(cfg, s, a, id);
    }
  }

  /** Steps that neither pick nor record for the channel leave the picture as it is. */
  lemma {:induction false} TracksByOthers(cfg: Config, s: State, a: Action, k: Blockade, picks: seq<Pick>, id: nat,
                                          least: Least)
    requires k.channel in cfg && Enabled(cfg, s, a) && Upholds(cfg, s, a, k, picks) && id in k.rivals
    requires ActorInv(cfg, s, a) && StoredInv(s, id) && FlightInv(cfg, s, Forwarder(k.channel))
    requires Tracks(s, k, id, picks, least) && !IsBy(a, Forwarder(k.channel)) && !a.Restart?
    ensures Tracks(Apply(cfg, s, a), k, id, picks, least)
  {
    KnownStep(cfg, s, a, k, picks, id);
    FlightOfOthers(cfg, s, a, Forwarder(k.channel));
    StoredStep(cfg, s, a, id);
    if id in s.received {
      DueTimeStep(cfg, s, a, id);
    }
  }

  lemma {:induction false} TracksIdle(cfg: Config, s: State, a: Action, k: Blockade, picks: seq<Pick>, id: nat,
                                      least: Least)
    requires k.channel in cfg && Enabled(cfg, s, a) && Upholds(cfg, s, a, k, picks) && id in k.rivals
    requires ActorInv(cfg, s, a) && StoredInv(s, id) && LoopInv(cfg, s, k.channel)
    requires Tracks(s, k, id, picks, least) && (IsBy(a, Forwarder(k.channel)) || a.Restart?)
    requires !Passes(a, k.channel) && !Records(a, k.channel) && !a.Respond?
    ensures Tracks(Apply(cfg, s, a), k, id, picks, least)
  {
    KnownStep(cfg, s, a, k, picks, id);
    StoredStep(cfg, s, a, id);
    if id in s.received {
      DueTimeStep(cfg, s, a, id);
    }
  }

  lemma {:induction false} TracksRefused(cfg: Config, s: State, a: Action, k: Blockade, picks: seq<Pick>, id: nat,
                                         expected: nat, b: SafeBackoff)
    requires k.channel in cfg && cfg[k.channel] == TargetOf(expected, b) && s.clock + b.max < TWO_TO_63
    requires Enabled(cfg, s, a) && Upholds(cfg, s, a, k, picks) && id in k.rivals
    requires ActorInv(cfg, s, a) && StoredInv(s, id) && FlightInv(cfg, s, Forwarder(k.channel))
    requires Tracks(s, k, id, picks, LeastDelay(b, k.refusals)) && a.Respond? && a.who == Forwarder(k.channel)
    ensures Tracks(Apply(cfg, s, a), k, id, picks, LeastDelay(b, k.refusals))
  {
    KnownStep(cfg, s, a, k, picks, id);
    QuietStep(cfg, s, a);
    var f := FlightOf(s, a.who);
    WholeDelayBounds(b, KindOf(a.answer), f.sent.attempts + 1, a.unit);
  }

  lemma {:induction false} TracksPicked(cfg: Config, s: State, a: Action, k: Blockade, picks: seq<Pick>, id: nat,
                                        least: Least)
    requires k.channel in cfg && Enabled(cfg, s, a) && Upholds(cfg, s, a, k, picks) && id in k.rivals
    requires ActorInv(cfg, s, a) && StoredInv(s, id) && LoopInv(cfg, s, k.channel)
    requires Tracks(s, k, id, picks, least) && Passes(a, k.channel)
    ensures Tracks(Apply(cfg, s, a), k, id, NextPicks(s, a, k.channel, picks), least)
    ensures a.peeked.id == id ==> IsDue(picks, id, s.loops[k.channel].now, least)
  {
    KnownStep(cfg, s, a, k, picks, id);
    QuietStep(cfg, s, a);
    AppendPick(picks, Pick(a.peeked.id, s.loops[k.channel].now, false), id);
  }

  lemma {:induction false} TracksRecorded(cfg: Config, s: State, a: Action, k: Blockade, picks: seq<Pick>, id: nat,
                                          least: Least)
    requires k.channel in cfg && Enabled(cfg, s, a) && Upholds(cfg, s, a, k, picks) && id in k.rivals
    requires ActorInv(cfg, s, a) && StoredInv(s, id) && Records(a, k.channel)
    requires Tracks(s, k, id, picks, least)
    requires picks != [] && !picks[|picks| - 1].recorded && FlightOf(s, a.who).id == picks[|picks| - 1].id
    ensures Tracks(Apply(cfg, s, a), k, id, NextPicks(s, a, k.channel, picks), least)
  {
    KnownStep(cfg, s, a, k, picks, id);
    StoredStep(cfg, s, a, id);
    MarkLast(picks, id);
    if FlightOf(s, a.who).id != id && id in s.received {
      DueTimeStep(cfg, s, a, id);
    }
  }

  // ---- the order of picks in any run ----

  /** The picks so far fit the state, and no more of them are unrecorded than passes came to
      nothing, but for the one in flight. */
  ghost predicate Follows(s: State, k: Blockade, picks: seq<Pick>, least: Least, failed: nat) {
    && (forall id :: id in k.rivals ==> Tracks(s, k, id, picks, least))
    && Sound(picks, k.rivals, k.gap, least)
    && (InFlight(s, Forwarder(k.channel)) ==> FlightOf(s, Forwarder(k.channel)).id in k.rivals)
    && Unrecorded(picks) <= failed + if InFlight(s, Forwarder(k.channel)) then 1 else 0
  }

  /** Whatever is recorded is the failure of the last pick. */
  ghost predicate RecordsLast(s: State, a: Action, c: string, picks: seq<Pick>) {
    Records(a, c) && InFlight(s, a.who) ==>
      picks != [] && !picks[|picks| - 1].recorded && FlightOf(s, a.who).id == picks[|picks| - 1].id
  }

  lemma {:induction false} TracksStep(cfg: Config, s: State, a: Action, k: Blockade, picks: seq<Pick>, id: nat,
                                      expected: nat, b: SafeBackoff)
    requires k.channel in cfg && cfg[k.channel] == TargetOf(expected, b) && s.clock + b.max < TWO_TO_63
    requires Enabled(cfg, s, a) && Upholds(cfg, s, a, k, picks) && id in k.rivals
    requires ActorInv(cfg, s, a) && StoredInv(s, id) && LoopInv(cfg, s, k.channel)
        && FlightInv(cfg, s, Forwarder(k.channel))
    requires Tracks(s, k, id, picks, LeastDelay(b, k.refusals)) && RecordsLast(s, a, k.channel, picks)
    ensures Tracks(Apply(cfg, s, a), k, id, NextPicks(s, a, k.channel, picks), LeastDelay(b, k.refusals))
    ensures Passes(a, k.channel) && a.peeked.id == id ==>
              IsDue(picks, id, s.loops[k.channel].now, LeastDelay(b, k.refusals))
  {
    var least, who := LeastDelay(b, k.refusals), Forwarder(k.channel);
    if Passes(a, k.channel) {
      TracksPicked(cfg, s, a, k, picks, id, least);
    } else if Records(a, k.channel) {
      TracksRecorded(cfg, s, a, k, picks, id, least);
    } else if a.Respond? && a.who == who {
      TracksRefused(cfg, s, a, k, picks, id, expected, b);
    } else if IsBy(a, who) || a.Restart? {
      TracksIdle(cfg, s, a, k, picks, id, least);
    } else {
      TracksByOthers(cfg, s, a, k, picks, id, least);
    }
  }

  /** A pass adds one pick to the order. */
  lemma {:induction false} OrderPicked(cfg: Config, s: State, a: Action, k: Blockade, picks: seq<Pick>, least: Least)
    requires k.channel in cfg && LoopInv(cfg, s, k.channel) && Enabled(cfg, s, a) && Upholds(cfg, s, a, k, picks)
    requires Passes(a, k.channel) && Sound(picks, k.rivals, k.gap, least)
    requires IsDue(picks, a.peeked.id, s.loops[k.channel].now, least)
    ensures var s', next := Apply(cfg, s, a), NextPicks(s, a, k.channel, picks);
            && Sound(next, k.rivals, k.gap, least) && |next| == |picks| + 1
            && Unrecorded(next) == Unrecorded(picks) + 1
            && !InFlight(s, Forwarder(k.channel)) && Carries(s', k.channel, a.peeked.id) && a.peeked.id in k.rivals
  {
    var pick := Pick(a.peeked.id, s.loops[k.channel].now, false);
    AppendPick(picks, pick, pick.id);
    assert (picks + [pick])[..|picks|] == picks;
  }

  /** A failure that is recorded is no longer unrecorded; one that is lost stays so. */
  lemma {:induction false} OrderLanded(cfg: Config, s: State, a: Action, k: Blockade, picks: seq<Pick>, least: Least)
    requires k.channel in cfg && Enabled(cfg, s, a) && !Passes(a, k.channel) && Sound(picks, k.rivals, k.gap, least)
    requires RecordsLast(s, a, k.channel, picks) && LoopInv(cfg, s, k.channel)
    requires InFlight(s, Forwarder(k.channel)) ==> !FlightOf(s, Forwarder(k.channel)).Delivered?
    ensures var who, s', next := Forwarder(k.channel), Apply(cfg, s, a), NextPicks(s, a, k.channel, picks);
            && Sound(next, k.rivals, k.gap, least) && |next| == |picks|
            && (InFlight(s', who) ==> InFlight(s, who) && FlightOf(s', who).id == FlightOf(s, who).id)
            && Unrecorded(next) + (if InFlight(s, who) then 1 else 0)
               <= Unrecorded(picks) + (if Fails(a, k.channel) then 1 else 0) + if InFlight(s', who) then 1 else 0
  {
    if Records(a, k.channel) {
      MarkLast(picks, 0);
      MarkKeepsSound(picks, k.rivals, k.gap, least);
    } else if !IsBy(a, Forwarder(k.channel)) && !a.Restart? {
      FlightOfOthers(cfg, s, a, Forwarder(k.channel));
    }
  }

  lemma {:induction false} FollowsStep(cfg: Config, s: State, a: Action, k: Blockade, picks: seq<Pick>, failed: nat,
                                       expected: nat, b: SafeBackoff)
    requires k.channel in cfg && cfg[k.channel] == TargetOf(expected, b) && s.clock + b.max < TWO_TO_63
    requires Inv(cfg, s) && Enabled(cfg, s, a) && Upholds(cfg, s, a, k, picks)
    requires Follows(s, k, picks, LeastDelay(b, k.refusals), failed)
    ensures Follows(Apply(cfg, s, a), k, NextPicks(s, a, k.channel, picks), LeastDelay(b, k.refusals),
                    failed + if Fails(a, k.channel) then 1 else 0)
    ensures |NextPicks(s, a, k.channel, picks)| == |picks| + if Passes(a, k.channel) then 1 else 0
  {
    var c, who, least := k.channel, Forwarder(k.channel), LeastDelay(b, k.refusals);
    assert ActorInv(cfg, s, a) && LoopInv(cfg, s, c) && FlightInv(cfg, s, who);
    if InFlight(s, who) {
      assert Tracks(s, k, FlightOf(s, who).id, picks, least);
    }
    forall id | id in k.rivals
      ensures Tracks(Apply(cfg, s, a), k, id, NextPicks(s, a, c, picks), least)
      ensures Passes(a, c) && a.peeked.id == id ==> IsDue(picks, id, s.loops[c].now, least)
    {
      assert StoredInv(s, id);
      TracksStep(cfg, s, a, k, picks, id, expected, b);
    }
    if Passes(a, c) {
      OrderPicked(cfg, s, a, k, picks, least);
    } else {
      OrderLanded(cfg, s, a, k, picks, least);
    }
  }

  lemma {:induction false} GoesSplits(cfg: Config, s: State, acts: seq<Action>, k: Blockade, picks: seq<Pick>, n: nat,
                                      fails: nat, until: nat) returns (n': nat, fails': nat)
    requires k.channel in cfg && acts != [] && Goes(cfg, s, acts, k, picks, n, fails, until)
    ensures Enabled(cfg, s, acts[0]) && Upholds(cfg, s, acts[0], k, picks) && s.clock <= until
    ensures n == n' + if Passes(acts[0], k.channel) then 1 else 0
    ensures fails == fails' + if Fails(acts[0], k.channel) then 1 else 0
    ensures Goes(cfg, Apply(cfg, s, acts[0]), acts[1..], k, NextPicks(s, acts[0], k.channel, picks), n', fails', until)
  {
    ClockGrows(cfg, s, acts);
    n' := PassCount(acts[1..], k.channel);
    fails' := fails - if Fails(acts[0], k.channel) then 1 else 0;
  }

  lemma {:induction false} OrderOn(cfg: Config, s: State, acts: seq<Action>, k: Blockade, picks: seq<Pick>, n: nat,
                                   failed: nat, fails: nat, until: nat, expected: nat, b: SafeBackoff)
    returns (all: seq<Pick>, e: State)
    requires k.channel in cfg && cfg[k.channel] == TargetOf(expected, b) && until + b.max < TWO_TO_63
    requires Bounded(cfg) && Inv(cfg, s) && Goes(cfg, s, acts, k, picks, n, fails, until)
    requires Follows(s, k, picks, LeastDelay(b, k.refusals), failed)
    ensures |all| == |picks| + n && Follows(e, k, all, LeastDelay(b, k.refusals), failed + fails)
    decreases |acts|
  {
    all, e := picks, s;
    if acts != [] {
      var a := acts[0];
      var n', fails' := GoesSplits(cfg, s, acts, k, picks, n, fails, until);
      var next, s' := NextPicks(s, a, k.channel, picks), Apply(cfg, s, a);
      FollowsStep(cfg, s, a, k, picks, failed, expected, b);
      StepKeepsInv(cfg, s, a);
      all, e := OrderOn(cfg, s', acts[1..], k, next, n', failed + (fails - fails'), fails', until, expected, b);
    }
  }

  /** In every interleaving from an empty table on, the passes of a blockade, in order, each
      pick a rival whose last recorded failure lies at least its delay back, and no more of
      them but the last go unrecorded than passes came to nothing. */
  lemma {:induction false} PicksInOrder(cfg: Config, clock: nat, acts: seq<Action>, k: Blockade, n: nat, fails: nat,
                                        until: nat, expected: nat, b: SafeBackoff) returns (picks: seq<Pick>)
    requires k.channel in cfg && cfg[k.channel] == TargetOf(expected, b) && until + b.max < TWO_TO_63 && Bounded(cfg)
    requires Goes(cfg, Initial(cfg, clock), acts, k, [], n, fails, until)
    ensures |picks| == n && Sound(picks, k.rivals, k.gap, LeastDelay(b, k.refusals))
    ensures n > 0 ==> Unrecorded(picks[..n - 1]) <= fails
  {
    var least, who, e := LeastDelay(b, k.refusals), Forwarder(k.channel), Initial(cfg, clock);
    InitialInv(cfg, clock);
    picks, e := OrderOn(cfg, e, acts, k, [], n, 0, fails, until, expected, b);
    if n > 0 && InFlight(e, who) {
      assert Tracks(e, k, FlightOf(e, who).id, picks, least);
    }
  }
}
