/** When failing webhooks hold up the ones behind them. The documentation says that a webhook
    the target keeps rejecting never does. A few of them do whenever each has waited out its
    delay by the time the others have had their turn; this module says exactly when. */
module HeadOfLine {
  import opened Wrappers
  import opened Sets
  import opened Backoff
  import opened Protocol
  import opened Picks
  import opened Blockades
  import opened Rotation
  import opened Schedules

  /** The clock reading of the last of these passes still fits with the ceiling. */
  predicate InTime(clock: nat, n: nat, gap: nat, max: nat) {
    clock + 1 + n * gap + max < TWO_TO_63
  }

  // ---- only if ----

  lemma {:induction false} PickedBy(cfg: Config, clock: nat, c: string, plan: Plan, n: nat, expected: nat,
                                    b: SafeBackoff) returns (picks: seq<Pick>, rivals: set<nat>)
    requires Bounded(cfg) && c in cfg && cfg[c] == TargetOf(expected, b)
    requires n > 0 && CanBlock(cfg, clock, c, plan, n)
    ensures 0 < |rivals| <= plan.size && |picks| == n
    ensures Sound(picks, rivals, plan.gap, LeastDelay(b, plan.refusals)) && Unrecorded(picks[..n - 1]) <= plan.fails
  {
    var acts, younger, until: nat;
    acts, rivals, younger, until :| |rivals| <= plan.size && until + cfg[c].max < TWO_TO_63
        && Goes(cfg, Initial(cfg, clock), acts,
                Blockade(c, rivals, younger, plan.gap, plan.refusals, plan.faults), [], n, plan.fails, until);
    var k := Blockade(c, rivals, younger, plan.gap, plan.refusals, plan.faults);
    picks := PicksInOrder(cfg, clock, acts, k, n, plan.fails, until, expected, b);
    AllRivals(picks, rivals, plan.gap, LeastDelay(b, plan.refusals), 0);
    assert rivals != {};
  }

  lemma {:induction false} LeastGrows(b: SafeBackoff, refusals: Refusals, failures: nat, later: nat)
    requires failures <= later
    ensures 0 <= LeastDelay(b, refusals)(failures) <= LeastDelay(b, refusals)(later) <= b.max
    ensures failures >= 65 ==> LeastDelay(b, refusals)(failures) == LeastDelay(b, refusals)(later)
  {
    LowGrows(b, failures, later);
  }

  // ---- if ----

  /** The replies after which a webhook waits least. */
  function ShortestReplies(expected: nat, refusals: Refusals): Replies {
    (failure: nat) =>
      match refusals
      case Rejections => (Response(if expected == 400 then 404 else 400, None), 0.0)
      case Unrequested => (NetworkError, 0.0)
      case AnyFailures => (Response(if expected == 500 then 503 else 500, Some(0)), 0.0)
  }

  lemma {:induction false} ShortestAre(expected: nat, b: SafeBackoff, refusals: Refusals, failure: nat)
    ensures var (answer, unit) := ShortestReplies(expected, refusals)(failure);
            && Permits(refusals, TargetOf(expected, b), answer)
            && WholeDelay(b, KindOf(answer), failure, RequestedDelay(answer), unit) == LeastDelay(b, refusals)(failure)
  {
    var (answer, unit) := ShortestReplies(expected, refusals)(failure);
    LowIsReached(b, failure);
    DelayEnvelope(b, KindOf(answer), failure, RequestedDelay(answer), unit);
  }

  /** Webhooks that take turns block the channel as long as no delay is longer than a round. */
  lemma {:induction false} TurnsBlock(cfg: Config, clock: nat, c: string, plan: Plan, n: nat, most: nat, expected: nat,
                                      b: SafeBackoff)
    requires c in cfg && cfg[c] == TargetOf(expected, b) && plan.size > 0 && InTime(clock, n, plan.gap, b.max)
    requires forall failure: nat :: 0 < failure && plan.fails + Times(failure, plan.size) < n ==> failure <= most
    requires most == 0 || LeastDelay(b, plan.refusals)(most) <= Times(plan.size, plan.gap)
    ensures CanBlock(cfg, clock, c, plan, n)
  {
    var replies, target := ShortestReplies(expected, plan.refusals), TargetOf(expected, b);
    var fails := if n == 0 then 0 else if plan.fails < n then plan.fails else n - 1;
    forall failure: nat | 0 < failure
      ensures var (answer, unit) := replies(failure);
              && Permits(plan.refusals, target, answer)
              && (Times(failure, plan.size) < n - fails ==>
                    target.delay(KindOf(answer), failure, RequestedDelay(answer), unit) <= Times(plan.size, plan.gap))
    {
      ShortestAre(expected, b, plan.refusals, failure);
      TimesGrows(1, failure, plan.size);
      if Times(failure, plan.size) < n - fails {
        LeastGrows(b, plan.refusals, failure, most);
      }
    }
    TimesMultiply(n, plan.gap);
    LingeringBlocks(cfg, clock, c, plan, n, fails, replies, clock + 1 + Times(n, plan.gap));
  }

  // ---- one webhook ----

  /** One failing webhook can take n passes in a row, `gap` seconds apart, while a younger one
      is due, f of the passes coming to nothing, exactly if the least delay of the failures
      permitted has passed at its failure n - 1 - f. */
  lemma {:induction false} BlocksIff(cfg: Config, clock: nat, c: string, plan: Plan, n: nat, expected: nat,
                                     b: SafeBackoff)
    requires Bounded(cfg) && c in cfg && cfg[c] == TargetOf(expected, b)
    requires plan.size == 1 && InTime(clock, n, plan.gap, b.max)
    ensures CanBlock(cfg, clock, c, plan, n) <==>
              n <= 1 + plan.fails || LeastDelay(b, plan.refusals)(n - 1 - plan.fails) <= plan.gap
  {
    var most := if n <= 1 + plan.fails then 0 else n - 1 - plan.fails;
    if most == 0 || LeastDelay(b, plan.refusals)(most) <= plan.gap {
      forall failure: nat | 0 < failure && plan.fails + Times(failure, plan.size) < n ensures failure <= most {
        TimesMultiply(failure, 1);
      }
      TimesMultiply(plan.size, plan.gap);
      TurnsBlock(cfg, clock, c, plan, n, most, expected, b);
    }
    if most > 0 && CanBlock(cfg, clock, c, plan, n) {
      OneBlocksOnlyIf(cfg, clock, c, plan, n, expected, b);
    }
  }

  lemma {:induction false} OneBlocksOnlyIf(cfg: Config, clock: nat, c: string, plan: Plan, n: nat, expected: nat,
                                           b: SafeBackoff)
    requires Bounded(cfg) && c in cfg && cfg[c] == TargetOf(expected, b)
    requires plan.size == 1 && 1 + plan.fails < n && CanBlock(cfg, clock, c, plan, n)
    ensures LeastDelay(b, plan.refusals)(n - 1 - plan.fails) <= plan.gap
  {
    var least := LeastDelay(b, plan.refusals);
    var picks, rivals := PickedBy(cfg, clock, c, plan, n, expected, b);
    var id :| id in rivals;
    SubsetSize({id}, rivals);
    forall failure, later: nat | 0 < failure <= later ensures least(failure) <= least(later) {
      LeastGrows(b, plan.refusals, failure, later);
    }
    OneRival(picks, id, plan.gap, least, n - 1 - plan.fails);
  }

  // ---- several rejected webhooks ----

  /** k rejected webhooks can keep a due younger one waiting over n passes, all of whose
      failures are recorded, exactly if there are no more than k passes or the ceiling is no
      longer than k gaps. */
  lemma {:induction false} RejectionsBlockIff(cfg: Config, clock: nat, c: string, plan: Plan, n: nat, expected: nat,
                                              b: SafeBackoff)
    requires Bounded(cfg) && c in cfg && cfg[c] == TargetOf(expected, b)
    requires plan.refusals.Rejections? && plan.fails == 0 && InTime(clock, n, plan.gap, b.max)
    ensures CanBlock(cfg, clock, c, plan, n) <==> n <= plan.size || b.max <= plan.size * plan.gap
  {
    TimesMultiply(plan.size, plan.gap);
    if n == 0 {
      NoPasses(cfg, clock, c, plan);
    } else if n <= plan.size {
      forall failure: nat | 0 < failure && Times(failure, plan.size) < n ensures false {
        TimesGrows(1, failure, plan.size);
      }
      TurnsBlock(cfg, clock, c, plan, n, 0, expected, b);
    } else if b.max <= plan.size * plan.gap {
      forall failure: nat | 0 < failure && Times(failure, plan.size) < n ensures failure <= n {
        TimesAtLeast(failure, plan.size);
      }
      TurnsBlock(cfg, clock, c, plan, n, n, expected, b);
    } else if CanBlock(cfg, clock, c, plan, n) {
      var picks, rivals := PickedBy(cfg, clock, c, plan, n, expected, b);
      var least := LeastDelay(b, plan.refusals);
      NoneUnrecorded(picks[..n - 1]);
      var i, failures := WindowRepeats(picks, rivals, plan.gap, least, 0);
      TimesGrows(|rivals|, plan.size, plan.gap);
    }
  }

  lemma {:induction false} NoPasses(cfg: Config, clock: nat, c: string, plan: Plan)
    requires c in cfg && clock + cfg[c].max < TWO_TO_63
    ensures CanBlock(cfg, clock, c, plan, 0)
  {
    var k, acts: seq<Action> := Blockade(c, {}, 0, plan.gap, plan.refusals, plan.faults), [];
    assert Goes(cfg, Initial(cfg, clock), acts, k, [], 0, plan.fails, clock);
  }

  lemma {:induction false} TimesAtLeast(n: nat, each: nat)
    requires each > 0
    ensures n <= Times(n, each)
  {
    if n > 0 {
      TimesAtLeast(n - 1, each);
    }
  }

  // ---- for good ----

  /** So many passes show whether the webhooks can go on for good. */
  function Enough(plan: Plan): nat {
    Times(1 + plan.fails + Times(plan.size, 64), plan.size) + 1
  }

  /** A few failing webhooks can block a channel for good, however many passes come to
      nothing, exactly if the least delay of the 65th failure, where the schedule stops
      growing, is no longer than a round of theirs. */
  lemma {:induction false} BlocksForeverIff(cfg: Config, clock: nat, c: string, plan: Plan, expected: nat,
                                            b: SafeBackoff)
    requires Bounded(cfg) && c in cfg && cfg[c] == TargetOf(expected, b) && plan.size > 0
    requires InTime(clock, Enough(plan), plan.gap, b.max)
    ensures (forall n: nat :: InTime(clock, n, plan.gap, b.max) ==> CanBlock(cfg, clock, c, plan, n)) <==>
              LeastDelay(b, plan.refusals)(65) <= plan.size * plan.gap
  {
    var least := LeastDelay(b, plan.refusals);
    TimesMultiply(plan.size, plan.gap);
    if least(65) <= plan.size * plan.gap {
      forall n: nat | InTime(clock, n, plan.gap, b.max) ensures CanBlock(cfg, clock, c, plan, n) {
        BlocksOn(cfg, clock, c, plan, n, expected, b);
      }
    } else if CanBlock(cfg, clock, c, plan, Enough(plan)) {
      BlocksNoLonger(cfg, clock, c, plan, Enough(plan), expected, b);
    }
  }

  lemma {:induction false} BlocksOn(cfg: Config, clock: nat, c: string, plan: Plan, n: nat, expected: nat,
                                    b: SafeBackoff)
    requires c in cfg && cfg[c] == TargetOf(expected, b) && plan.size > 0 && InTime(clock, n, plan.gap, b.max)
    requires LeastDelay(b, plan.refusals)(65) <= Times(plan.size, plan.gap)
    ensures CanBlock(cfg, clock, c, plan, n)
  {
    var most := if n <= 65 then 65 else n;
    forall failure: nat | 0 < failure && plan.fails + Times(failure, plan.size) < n ensures failure <= most {
      TimesAtLeast(failure, plan.size);
    }
    LeastGrows(b, plan.refusals, 65, most);
    TurnsBlock(cfg, clock, c, plan, n, most, expected, b);
  }

  lemma {:induction false} BlocksNoLonger(cfg: Config, clock: nat, c: string, plan: Plan, n: nat, expected: nat,
                                          b: SafeBackoff)
    requires Bounded(cfg) && c in cfg && cfg[c] == TargetOf(expected, b) && n > 0
    requires Times(plan.size, plan.gap) < LeastDelay(b, plan.refusals)(65) && CanBlock(cfg, clock, c, plan, n)
    ensures n < Enough(plan)
  {
    var least := LeastDelay(b, plan.refusals);
    var picks, rivals := PickedBy(cfg, clock, c, plan, n, expected, b);
    var k := |rivals|;
    TimesGrows(k, plan.size, plan.gap);
    forall failures: nat | 65 <= failures ensures Times(k, plan.gap) < least(failures) {
      LeastGrows(b, plan.refusals, 65, failures);
    }
    FewPasses(picks, rivals, plan.gap, least, 65);
    TimesGrows(k, plan.size, 64);
    TimesGrows(1 + Unrecorded(picks[..n - 1]) + Times(k, 64), 1 + plan.fails + Times(plan.size, 64), k);
    TimesGrowsByEach(1 + plan.fails + Times(plan.size, 64), k, plan.size);
  }

  lemma {:induction false} TimesGrowsByEach(n: nat, each: nat, larger: nat)
    requires each <= larger
    ensures Times(n, each) <= Times(n, larger)
  {
    if n > 0 {
      TimesGrowsByEach(n - 1, each, larger);
    }
  }

  /** A schedule that does not grow lets one webhook block its channel for good at the
      forwarder's own pace. */
  lemma {:induction false} FixedIntervalBlocksForever(cfg: Config, clock: nat, c: string, plan: Plan, n: nat,
                                                      expected: nat, b: SafeBackoff)
    requires c in cfg && cfg[c] == TargetOf(expected, b) && b.multiplier == 1.0
    requires plan.size > 0 && plan.gap == b.base && plan.refusals.Unrequested? && InTime(clock, n, b.base, b.max)
    ensures CanBlock(cfg, clock, c, plan, n)
  {
    FlatStaysAtBase(b, 65);
    TimesGrows(1, plan.size, plan.gap);
    BlocksOn(cfg, clock, c, plan, n, expected, b);
  }

  /** The schedule of the program's defaults for an interval of 30 seconds. */
  const DefaultBackoff: SafeBackoff := ForwardBackoff(30, 2.0, 3600, 0.2)

  /** With it and passes 30 seconds apart, 120 rejected webhooks starve a channel for good and
      fewer never do; with failures of every kind it takes 96. */
  lemma {:induction false} DefaultsStarveIff(cfg: Config, clock: nat, c: string, plan: Plan, expected: nat)
    requires Bounded(cfg) && c in cfg && cfg[c] == TargetOf(expected, DefaultBackoff)
    requires plan.size > 0 && plan.gap == 30 && InTime(clock, Enough(plan), 30, 3600)
    ensures (forall n: nat :: InTime(clock, n, 30, 3600) ==> CanBlock(cfg, clock, c, plan, n)) <==>
              match plan.refusals
              case Rejections => plan.size >= 120
              case Unrequested => plan.size >= 96
              case AnyFailures => true
  {
    BlocksForeverIff(cfg, clock, c, plan, expected, DefaultBackoff);
    DoublingReachesCeiling(DefaultBackoff, 65);
    assert Low(DefaultBackoff, 65) == 2880;
  }
}
