/** No head-of-line blocking: failing webhooks are parked, so a due webhook is reached
    after at most as many passes as it has rivals. */
module Fairness {
  import opened Sets
  import opened Backoff
  import opened Webhooks
  import opened Protocol
  import opened Invariant
  import opened Guarantees
  import opened Draining
  import opened Spacing

  /** One step of a window that ends by `horizon`: the forwarder's writes and request
      building succeed, and a failure recorded in the channel parks its webhook beyond
      the window. */
  ghost predicate StaysInWindow(cfg: Config, s: State, a: Action, c: string, horizon: int)
    requires Enabled(cfg, s, a)
  {
    && Apply(cfg, s, a).clock <= horizon
    && !a.Restart? && !Slips(c, a)
    && (a.Park? && a.ok && ChannelOf(FlightOf(s, a.who)) == c ==> horizon < FlightOf(s, a.who).nextAt)
  }

  ghost predicate Window(cfg: Config, s: State, acts: seq<Action>, c: string, horizon: int)
    decreases |acts|
  {
    acts == [] ||
    (Enabled(cfg, s, acts[0]) && StaysInWindow(cfg, s, acts[0], c, horizon) &&
     Window(cfg, Apply(cfg, s, acts[0]), acts[1..], c, horizon))
  }

  // ---- nothing is attempted twice ----

  /** The forwarder has had its attempt at the webhook for this window. */
  ghost predicate Served(s: State, c: string, id: nat, horizon: int) {
    && id in s.received && s.received[id].channel == c
    && (Carries(s, c, id)
        || id !in s.table.rows
        || (s.table.rows[id].nextAt.Some? && horizon < s.table.rows[id].nextAt.value))
  }

  lemma {:induction false} ServedStep(cfg: Config, s: State, a: Action, c: string, id: nat, horizon: int)
    requires Inv(cfg, s) && Enabled(cfg, s, a) && s.clock <= horizon
    requires StaysInWindow(cfg, s, a, c, horizon) && Served(s, c, id, horizon)
    ensures Served(Apply(cfg, s, a), c, id, horizon)
    ensures a != Peek(c, Found(id))
  {
    assert ActorInv(cfg, s, a) && LoopInv(cfg, s, c) && StoredInv(s, id);
    StoredStep(cfg, s, a, id);
    DepartureStep(cfg, s, a, id);
    if !IsBy(a, Forwarder(c)) {
      FlightOfOthers(cfg, s, a, Forwarder(c));
    }
    if !(a.Park? && a.ok && FlightOf(s, a.who).id == id) {
      DueTimeStep(cfg, s, a, id);
    }
  }

  lemma {:induction false} ServedIsNotSent(cfg: Config, s: State, acts: seq<Action>, c: string, id: nat, horizon: int)
    requires Bounded(cfg) && Inv(cfg, s) && IsRun(cfg, s, acts)
    requires s.clock <= horizon && Window(cfg, s, acts, c, horizon) && Served(s, c, id, horizon)
    ensures id !in Sent(acts, c)
    decreases |acts|
  {
    if acts != [] {
      ServedStep(cfg, s, acts[0], c, id, horizon);
      StepKeepsInv(cfg, s, acts[0]);
      ServedIsNotSent(cfg, Apply(cfg, s, acts[0]), acts[1..], c, id, horizon);
    }
  }

  /** Within a window shorter than the delays assigned in it, no webhook of the channel is
      attempted twice. */
  lemma {:induction false} NoSecondAttempt(cfg: Config, s: State, acts: seq<Action>, c: string, horizon: int)
    requires Bounded(cfg) && Inv(cfg, s) && IsRun(cfg, s, acts)
    requires s.clock <= horizon && Window(cfg, s, acts, c, horizon)
    ensures Distinct(Sent(acts, c))
    decreases |acts|
  {
    if acts != [] {
      var a, s' := acts[0], Apply(cfg, s, acts[0]);
      StepKeepsInv(cfg, s, a);
      NoSecondAttempt(cfg, s', acts[1..], c, horizon);
      if StartsSend(c, a) {
        assert StoredInv(s, a.peeked.id);
        ServedIsNotSent(cfg, s', acts[1..], c, a.peeked.id, horizon);
      }
    }
  }

  // ---- a due webhook is reached ----

  /** The webhook is stored and due for every pass from now on, and nobody has it. */
  ghost predicate Ready(s: State, c: string, id: nat, due: int) {
    && id in s.received && s.received[id].channel == c
    && id in s.table.rows && s.table.rows[id].content == s.received[id]
    && Due(s.table.rows[id], due) && due <= s.clock
    && (c in s.loops && s.loops[c].Peeking? ==> due <= s.loops[c].now)
    && !Carries(s, c, id) && RetryFree(s, id)
  }

  lemma {:induction false} ReadyByOthers(cfg: Config, s: State, a: Action, c: string, id: nat, due: int)
    requires Enabled(cfg, s, a) && ActorInv(cfg, s, a) && StoredInv(s, id) && Ready(s, c, id, due)
    requires !Disturbs(a, id) && !IsBy(a, Forwarder(c)) && id in Apply(cfg, s, a).table.rows
    ensures Ready(Apply(cfg, s, a), c, id, due)
  {
    StoredStep(cfg, s, a, id);
    RetryFreeStep(cfg, s, a, id);
    DueTimeStep(cfg, s, a, id);
    FlightOfOthers(cfg, s, a, Forwarder(c));
  }

  lemma {:induction false} ReadyByOwn(cfg: Config, s: State, a: Action, c: string, id: nat, due: int)
    requires Enabled(cfg, s, a) && StoredInv(s, id) && Ready(s, c, id, due) && LoopInv(cfg, s, c)
    requires IsBy(a, Forwarder(c)) && a != Peek(c, Found(id)) && id in Apply(cfg, s, a).table.rows
    ensures Ready(Apply(cfg, s, a), c, id, due)
  {
    RetryFreeStep(cfg, s, a, id);
    DueTimeStep(cfg, s, a, id);
  }

  lemma {:induction false} ReadyStep(cfg: Config, s: State, a: Action, c: string, id: nat, due: int)
    requires Inv(cfg, s) && Enabled(cfg, s, a) && Ready(s, c, id, due)
    requires !Disturbs(a, id) && a != Peek(c, Found(id)) && id in Apply(cfg, s, a).table.rows
    ensures Ready(Apply(cfg, s, a), c, id, due)
  {
    assert ActorInv(cfg, s, a) && LoopInv(cfg, s, c) && StoredInv(s, id);
    if IsBy(a, Forwarder(c)) {
      ReadyByOwn(cfg, s, a, c, id, due);
    } else {
      if a.Park? {
        assert FlightInv(cfg, s, a.who);
      }
      ReadyByOthers(cfg, s, a, c, id, due);
    }
  }

  /** A pass of the forwarder whose peek was answered. */
  predicate Passes(a: Action, c: string) {
    a.Peek? && a.channel == c && !a.peeked.Unanswered?
  }

  function PassCount(acts: seq<Action>, c: string): nat {
    if acts == [] then 0 else (if Passes(acts[0], c) then 1 else 0) + PassCount(acts[1..], c)
  }

  predicate LeavesAlone(acts: seq<Action>, id: nat) {
    acts == [] || (!Disturbs(acts[0], id) && LeavesAlone(acts[1..], id))
  }

  /** The webhooks of the channel that may be served first: present at some time of the
      window and received no later. */
  function Rivals(s: State, e: State, c: string, id: nat): set<nat> {
    set other | other in e.received && id in e.received && other !in s.gone && other != id
                && e.received[other].channel == c && e.received[other].receivedAt <= e.received[id].receivedAt
  }

  lemma {:induction false} RivalsShrink(cfg: Config, s: State, a: Action, e: State, c: string, id: nat)
    requires Inv(cfg, s) && Enabled(cfg, s, a)
    ensures Rivals(Apply(cfg, s, a), e, c, id) <= Rivals(s, e, c, id)
  {
    assert ActorInv(cfg, s, a);
    forall other | other in s.gone ensures other in Apply(cfg, s, a).gone {
      assert StoredInv(s, other);
      DepartureStep(cfg, s, a, other);
    }
  }

  /** A pass that does not serve the webhook serves a rival of it. */
  lemma {:induction false} PassServesRival(cfg: Config, s: State, acts: seq<Action>, c: string, id: nat, due: int)
    requires Bounded(cfg) && Inv(cfg, s) && IsRun(cfg, s, acts) && acts != []
    requires Ready(s, c, id, due) && Passes(acts[0], c) && acts[0] != Peek(c, Found(id))
    ensures StartsSend(c, acts[0]) && acts[0].peeked.id in Rivals(s, Run(cfg, s, acts), c, id)
  {
    LogStays(cfg, s, acts, id);
    assert id in InChannel(s.table, c);
    assert acts[0].peeked.Found?;
    var other := acts[0].peeked.id;
    assert StoredInv(s, other);
    LogStays(cfg, s, acts, other);
  }

  lemma {:induction false} WaitsOn(cfg: Config, s: State, acts: seq<Action>, c: string, id: nat, due: int)
    requires Bounded(cfg) && Inv(cfg, s) && IsRun(cfg, s, acts) && acts != []
    requires Ready(s, c, id, due) && !Disturbs(acts[0], id) && acts[0] != Peek(c, Found(id))
    requires id in Run(cfg, s, acts).table.rows
    ensures var s', e := Apply(cfg, s, acts[0]), Run(cfg, s, acts);
            Inv(cfg, s') && Ready(s', c, id, due) && Rivals(s', e, c, id) <= Rivals(s, e, c, id)
  {
    var s' := Apply(cfg, s, acts[0]);
    StepKeepsInv(cfg, s, acts[0]);
    assert StoredInv(s, id) && ActorInv(cfg, s, acts[0]);
    StoredStep(cfg, s, acts[0], id);
    LogStays(cfg, s', acts[1..], id);
    ReadyStep(cfg, s, acts[0], c, id, due);
    RivalsShrink(cfg, s, acts[0], Run(cfg, s, acts), c, id);
  }

  /** While the webhook waits, every pass serves one of its rivals. */
  lemma {:induction false} PassesServeRivals(cfg: Config, s: State, acts: seq<Action>, c: string, id: nat,
                                             due: int, rivals: set<nat>)
    requires Bounded(cfg) && Inv(cfg, s) && IsRun(cfg, s, acts)
    requires Ready(s, c, id, due) && LeavesAlone(acts, id)
    requires id in Run(cfg, s, acts).table.rows && id !in Sent(acts, c)
    requires Rivals(s, Run(cfg, s, acts), c, id) <= rivals
    ensures |Sent(acts, c)| == PassCount(acts, c)
    ensures forall i :: 0 <= i < |Sent(acts, c)| ==> Sent(acts, c)[i] in rivals
    decreases |acts|
  {
    if acts != [] {
      assert acts[0] != Peek(c, Found(id));
      WaitsOn(cfg, s, acts, c, id, due);
      PassesServeRivals(cfg, Apply(cfg, s, acts[0]), acts[1..], c, id, due, rivals);
      if Passes(acts[0], c) {
        PassServesRival(cfg, s, acts, c, id, due);
      }
    }
  }

  /** Bounded bypass: a due webhook with k rivals is attempted within k + 1 passes, unless
      it is taken out of the table before, as long as the failures recorded meanwhile park
      beyond the window. */
  lemma {:induction false} BoundedBypass(cfg: Config, s: State, acts: seq<Action>, c: string, id: nat, horizon: int)
    requires Bounded(cfg) && Inv(cfg, s) && IsRun(cfg, s, acts)
    requires s.clock <= horizon && Window(cfg, s, acts, c, horizon)
    requires Ready(s, c, id, s.clock) && LeavesAlone(acts, id)
    requires |Rivals(s, Run(cfg, s, acts), c, id)| < PassCount(acts, c)
    ensures id in Sent(acts, c) || id in Run(cfg, s, acts).gone
  {
    var e := Run(cfg, s, acts);
    RunKeepsInv(cfg, s, acts);
    LogStays(cfg, s, acts, id);
    assert StoredInv(e, id);
    if id !in Sent(acts, c) && id in e.table.rows {
      var rivals := Rivals(s, e, c, id);
      NoSecondAttempt(cfg, s, acts, c, horizon);
      PassesServeRivals(cfg, s, acts, c, id, s.clock, rivals);
      DistinctFits(Sent(acts, c), rivals);
    }
  }

  // ---- rejected webhooks cannot starve a fresh one ----

  ghost predicate ChannelRetryFree(s: State, c: string) {
    forall task :: InFlight(s, Retry(task)) ==> ChannelOf(FlightOf(s, Retry(task))) != c
  }

  /** One step in which the target rejects or accepts whatever the forwarder of the
      channel sends, and nobody retries by hand. */
  predicate RejectsOrAccepts(cfg: Config, s: State, a: Action, c: string)
    requires c in cfg
  {
    && Enabled(cfg, s, a) && !a.Restart? && !Slips(c, a)
    && (a.Respond? && a.who == Forwarder(c) ==> IsExpected(cfg[c], a.answer) || IsRejection(cfg[c], a.answer))
    && (a.Load? ==> s.table.rows[a.id].content.channel != c)
  }

  predicate Rejecting(cfg: Config, s: State, acts: seq<Action>, c: string)
    requires c in cfg
    decreases |acts|
  {
    acts == [] || (RejectsOrAccepts(cfg, s, acts[0], c) && Rejecting(cfg, Apply(cfg, s, acts[0]), acts[1..], c))
  }

  /** Whatever the channel's senders are about to record parks beyond the window. */
  ghost predicate ParksBeyond(s: State, c: string, horizon: int) {
    && ChannelRetryFree(s, c)
    && (InFlight(s, Forwarder(c)) && FlightOf(s, Forwarder(c)).Refused?
        ==> horizon < FlightOf(s, Forwarder(c)).nextAt)
  }

  lemma {:induction false} ParksBeyondStep(cfg: Config, s: State, a: Action, c: string, horizon: int)
    requires c in cfg && RejectionWaits(cfg[c]) && FlightInv(cfg, s, Forwarder(c))
    requires RejectsOrAccepts(cfg, s, a, c) && ParksBeyond(s, c, horizon)
    requires horizon < s.clock + cfg[c].max < TWO_TO_63
    ensures ParksBeyond(Apply(cfg, s, a), c, horizon)
  {
    forall task | InFlight(Apply(cfg, s, a), Retry(task))
      ensures ChannelOf(FlightOf(Apply(cfg, s, a), Retry(task))) != c
    {
      if !IsBy(a, Retry(task)) {
        FlightOfOthers(cfg, s, a, Retry(task));
      }
    }
    if !IsBy(a, Forwarder(c)) {
      FlightOfOthers(cfg, s, a, Forwarder(c));
    }
  }

  lemma {:induction false} RejectionStaysInWindow(cfg: Config, s: State, a: Action, c: string, horizon: int)
    requires c in cfg && Inv(cfg, s) && RejectsOrAccepts(cfg, s, a, c) && ParksBeyond(s, c, horizon)
    requires Apply(cfg, s, a).clock <= horizon
    ensures StaysInWindow(cfg, s, a, c, horizon)
  {
    if a.Park? {
      assert FlightInv(cfg, s, a.who);
    }
  }

  lemma {:induction false} RejectionsStayInWindow(cfg: Config, s: State, acts: seq<Action>, c: string, horizon: int)
    requires c in cfg && RejectionWaits(cfg[c]) && Bounded(cfg) && Inv(cfg, s)
    requires IsRun(cfg, s, acts) && Rejecting(cfg, s, acts, c) && ParksBeyond(s, c, horizon)
    requires Run(cfg, s, acts).clock <= horizon < s.clock + cfg[c].max
    requires Run(cfg, s, acts).clock + cfg[c].max < TWO_TO_63
    ensures Window(cfg, s, acts, c, horizon)
    ensures s.clock <= Run(cfg, s, acts).clock
    decreases |acts|
  {
    if acts != [] {
      var s' := Apply(cfg, s, acts[0]);
      assert FlightInv(cfg, s, Forwarder(c));
      ClockGrows(cfg, s, acts);
      ParksBeyondStep(cfg, s, acts[0], c, horizon);
      StepKeepsInv(cfg, s, acts[0]);
      RejectionsStayInWindow(cfg, s', acts[1..], c, horizon);
      RejectionStaysInWindow(cfg, s, acts[0], c, horizon);
    }
  }

  /** However many webhooks the target rejects, a fresh one is attempted, unless it is taken
      out before, as soon as the forwarder has made one pass more than there are rivals,
      provided those passes take less than one ceiling. */
  lemma {:induction false} RejectionsCannotStarve(cfg: Config, s: State, acts: seq<Action>, c: string, id: nat)
    requires c in cfg && RejectionWaits(cfg[c]) && Bounded(cfg) && Inv(cfg, s)
    requires IsRun(cfg, s, acts) && Rejecting(cfg, s, acts, c)
    requires ParksBeyond(s, c, Run(cfg, s, acts).clock)
    requires Run(cfg, s, acts).clock < s.clock + cfg[c].max && FitsUntil(cfg, Run(cfg, s, acts).clock)
    requires Ready(s, c, id, s.clock) && LeavesAlone(acts, id)
    requires |Rivals(s, Run(cfg, s, acts), c, id)| < PassCount(acts, c)
    ensures id in Sent(acts, c) || id in Run(cfg, s, acts).gone
  {
    RejectionsStayInWindow(cfg, s, acts, c, Run(cfg, s, acts).clock);
    BoundedBypass(cfg, s, acts, c, id, Run(cfg, s, acts).clock);
  }

  // ---- the same in terms of the pace ----

  /** Wherever the run is, the forwarder has had an answered pass in the last `pace` seconds;
      before its first one that time counts from `since`. */
  ghost predicate Paced(cfg: Config, s: State, acts: seq<Action>, c: string, pace: nat, since: nat)
    decreases |acts|
  {
    && s.clock <= since + pace
    && (acts == [] ||
        (Enabled(cfg, s, acts[0]) &&
         Paced(cfg, Apply(cfg, s, acts[0]), acts[1..], c, pace, if Passes(acts[0], c) then s.clock else since)))
  }

  lemma {:induction false} PassTakesNoTime(cfg: Config, s: State, a: Action, c: string)
    requires Enabled(cfg, s, a) && Passes(a, c)
    ensures Apply(cfg, s, a).clock == s.clock
  {
    QuietStep(cfg, s, a);
  }

  /** Every sequence of steps can be cut right after its `n`-th pass. */
  lemma {:induction false} CutAtPass(acts: seq<Action>, c: string, n: nat)
    returns (front: seq<Action>, back: seq<Action>)
    requires 0 < n <= PassCount(acts, c)
    ensures acts == front + back && PassCount(front, c) == n
    ensures front != [] && Passes(front[|front| - 1], c)
  {
    var rest: seq<Action>;
    if Passes(acts[0], c) && n == 1 {
      rest, back := [], acts[1..];
    } else {
      rest, back := CutAtPass(acts[1..], c, if Passes(acts[0], c) then n - 1 else n);
    }
    front := [acts[0]] + rest;
    assert front[1..] == rest;
  }

  /** A paced run has made its `n`-th pass after `n` times the pace. */
  lemma {:induction false} PacedClock(cfg: Config, s: State, acts: seq<Action>, c: string, pace: nat, since: nat)
    requires IsRun(cfg, s, acts) && Paced(cfg, s, acts, c, pace, since)
    requires acts != [] && Passes(acts[|acts| - 1], c)
    ensures Run(cfg, s, acts).clock <= since + Times(PassCount(acts, c), pace)
    decreases |acts|
  {
    var a, s' := acts[0], Apply(cfg, s, acts[0]);
    if Passes(a, c) {
      PassTakesNoTime(cfg, s, a, c);
    }
    if |acts| > 1 {
      assert acts[1..][|acts| - 2] == acts[|acts| - 1];
      PacedClock(cfg, s', acts[1..], c, pace, if Passes(a, c) then s.clock else since);
    }
  }

  lemma {:induction false} FrontsKeep(cfg: Config, s: State, front: seq<Action>, back: seq<Action>, c: string, id: nat,
                                      pace: nat, since: nat)
    requires c in cfg && Rejecting(cfg, s, front + back, c) && LeavesAlone(front + back, id)
    requires Paced(cfg, s, front + back, c, pace, since)
    ensures Rejecting(cfg, s, front, c) && LeavesAlone(front, id) && Paced(cfg, s, front, c, pace, since)
    ensures id in Sent(front, c) ==> id in Sent(front + back, c)
    decreases |front|
  {
    if front != [] {
      assert (front + back)[0] == front[0] && (front + back)[1..] == front[1..] + back;
      FrontsKeep(cfg, Apply(cfg, s, front[0]), front[1..], back, c, id, pace,
                 if Passes(front[0], c) then s.clock else since);
    }
  }

  lemma {:induction false} RivalsGrow(cfg: Config, s: State, e: State, later: seq<Action>, c: string, id: nat)
    requires Bounded(cfg) && Inv(cfg, e) && IsRun(cfg, e, later) && id in e.received
    ensures Rivals(s, e, c, id) <= Rivals(s, Run(cfg, e, later), c, id)
  {
    LogStays(cfg, e, later, id);
    forall other | other in Rivals(s, e, c, id) ensures other in Rivals(s, Run(cfg, e, later), c, id) {
      LogStays(cfg, e, later, other);
    }
  }

  lemma {:induction false} FrontServes(cfg: Config, s: State, front: seq<Action>, back: seq<Action>, c: string,
                                       id: nat, horizon: nat)
    requires c in cfg && RejectionWaits(cfg[c]) && Bounded(cfg) && Inv(cfg, s) && Rejecting(cfg, s, front, c)
    requires IsRun(cfg, s, front) && IsRun(cfg, Run(cfg, s, front), back)
    requires Run(cfg, s, front).clock <= horizon < s.clock + cfg[c].max && FitsUntil(cfg, horizon)
    requires ParksBeyond(s, c, horizon) && Ready(s, c, id, s.clock) && LeavesAlone(front, id)
    requires |Rivals(s, Run(cfg, Run(cfg, s, front), back), c, id)| < PassCount(front, c)
    ensures id in Sent(front, c) || id in Run(cfg, Run(cfg, s, front), back).gone
  {
    var e := Run(cfg, s, front);
    ClockGrows(cfg, s, front);
    RunKeepsInv(cfg, s, front);
    LogStays(cfg, s, front, id);
    LogStays(cfg, e, back, id);
    RivalsGrow(cfg, s, e, back, c, id);
    SubsetSize(Rivals(s, e, c, id), Rivals(s, Run(cfg, e, back), c, id));
    RejectionsStayInWindow(cfg, s, front, c, horizon);
    BoundedBypass(cfg, s, front, c, id, horizon);
  }

  /** Rejected webhooks cannot starve a fresh one: if the forwarder makes a pass at least
      every `pace` seconds (its interval and what one request may take) and (k + 1) passes
      at that pace fit within the ceiling, then a due webhook with k rivals is attempted,
      or taken out, by the time of k + 1 passes, whatever the target rejects meanwhile. */
  lemma {:induction false} PacedRejectionsCannotStarve(cfg: Config, s: State, acts: seq<Action>, c: string, id: nat,
                                                       pace: nat, k: nat)
    requires c in cfg && RejectionWaits(cfg[c]) && Bounded(cfg) && Inv(cfg, s)
    requires IsRun(cfg, s, acts) && Rejecting(cfg, s, acts, c) && Paced(cfg, s, acts, c, pace, s.clock)
    requires |Rivals(s, Run(cfg, s, acts), c, id)| <= k < PassCount(acts, c)
    requires (k + 1) * pace < cfg[c].max && FitsUntil(cfg, s.clock + (k + 1) * pace)
    requires ParksBeyond(s, c, s.clock + (k + 1) * pace)
    requires Ready(s, c, id, s.clock) && LeavesAlone(acts, id)
    ensures id in Sent(acts, c) || id in Run(cfg, s, acts).gone
  {
    TimesMultiply(k + 1, pace);
    var front, back := CutAtPass(acts, c, k + 1);
    RunSplits(cfg, s, front, back);
    FrontsKeep(cfg, s, front, back, c, id, pace, s.clock);
    PacedClock(cfg, s, front, c, pace, s.clock);
    FrontServes(cfg, s, front, back, c, id, s.clock + (k + 1) * pace);
  }

  /** A paced run of n passes has lasted no longer than n + 1 times the pace. */
  lemma {:induction false} PacedEnd(cfg: Config, s: State, acts: seq<Action>, c: string, pace: nat, since: nat)
    requires IsRun(cfg, s, acts) && Paced(cfg, s, acts, c, pace, since)
    ensures Run(cfg, s, acts).clock <= since + Times(PassCount(acts, c) + 1, pace)
    decreases |acts|
  {
    if acts != [] {
      var a, s' := acts[0], Apply(cfg, s, acts[0]);
      if Passes(a, c) {
        PassTakesNoTime(cfg, s, a, c);
      }
      PacedEnd(cfg, s', acts[1..], c, pace, if Passes(a, c) then s.clock else since);
    }
  }

  /** So in any run of more than k + 1 times the pace, a due webhook with k rivals is
      attempted or taken out. */
  lemma {:induction false} ServedInTime(cfg: Config, s: State, acts: seq<Action>, c: string, id: nat, pace: nat, k: nat)
    requires c in cfg && RejectionWaits(cfg[c]) && Bounded(cfg) && Inv(cfg, s)
    requires IsRun(cfg, s, acts) && Rejecting(cfg, s, acts, c) && Paced(cfg, s, acts, c, pace, s.clock)
    requires |Rivals(s, Run(cfg, s, acts), c, id)| <= k && s.clock + (k + 1) * pace < Run(cfg, s, acts).clock
    requires (k + 1) * pace < cfg[c].max && FitsUntil(cfg, s.clock + (k + 1) * pace)
    requires ParksBeyond(s, c, s.clock + (k + 1) * pace)
    requires Ready(s, c, id, s.clock) && LeavesAlone(acts, id)
    ensures id in Sent(acts, c) || id in Run(cfg, s, acts).gone
  {
    TimesMultiply(k + 1, pace);
    PacedEnd(cfg, s, acts, c, pace, s.clock);
    if PassCount(acts, c) <= k {
      TimesGrows(PassCount(acts, c) + 1, k + 1, pace);
    }
    PacedRejectionsCannotStarve(cfg, s, acts, c, id, pace, k);
  }
}
