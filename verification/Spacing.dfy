/** When a webhook is tried again: due times, spacing between attempts, and the pace at
    which a webhook the target keeps rejecting can still be sent. */
module Spacing {
  import opened Wrappers
  import opened Sets
  import opened Backoff
  import opened Protocol
  import opened Invariant

  /** No manual retry of the webhook is in flight. */
  ghost predicate RetryFree(s: State, id: nat) {
    forall task :: InFlight(s, Retry(task)) ==> FlightOf(s, Retry(task)).id != id
  }

  predicate Carries(s: State, c: string, id: nat) {
    InFlight(s, Forwarder(c)) && FlightOf(s, Forwarder(c)).id == id
  }

  /** The action is a manual retry of the webhook, or wipes the process's memory. */
  predicate Disturbs(a: Action, id: nat) {
    a.Restart? || (a.Load? && a.id == id)
  }

  /** A forwarder's database write or request failed. */
  predicate Slips(c: string, a: Action) {
    || (a.Forget? && a.who == Forwarder(c) && !a.ok)
    || (a.Park? && a.who == Forwarder(c) && !a.ok)
    || a == Abandon(Forwarder(c))
  }

  lemma {:induction false} RetryFreeStep(cfg: Config, s: State, a: Action, id: nat)
    requires Enabled(cfg, s, a) && RetryFree(s, id) && !Disturbs(a, id)
    ensures RetryFree(Apply(cfg, s, a), id)
  {
    forall task | InFlight(Apply(cfg, s, a), Retry(task))
      ensures FlightOf(Apply(cfg, s, a), Retry(task)).id != id
    {
      if !IsBy(a, Retry(task)) {
        FlightOfOthers(cfg, s, a, Retry(task));
      }
    }
  }

  /** What a row shows of its schedule only changes by a record of its own failure. */
  lemma {:induction false} DueTimeStep(cfg: Config, s: State, a: Action, id: nat)
    requires Enabled(cfg, s, a) && StoredInv(s, id) && id in s.received
    requires a.Park? && a.ok ==> FlightOf(s, a.who).id != id
    ensures id in Apply(cfg, s, a).table.rows ==>
              id in s.table.rows && Apply(cfg, s, a).table.rows[id] == s.table.rows[id]
  {
  }

  // ---- spacing of two consecutive attempts ----

  /** The webhook waits for `due`: its failure is about to be recorded with that due time,
      or the row shows it, or the row is gone. */
  ghost predicate Waits(s: State, c: string, id: nat, due: int) {
    && id in s.received && s.received[id].channel == c && RetryFree(s, id)
    && if Carries(s, c, id) then FlightOf(s, Forwarder(c)).Refused? && FlightOf(s, Forwarder(c)).nextAt == due
       else id in s.table.rows ==> s.table.rows[id].nextAt == Some(due)
  }

  /** The webhook is left to the forwarder, whose writes succeed, and not sent again. */
  predicate Undisturbed(acts: seq<Action>, c: string, id: nat) {
    acts == [] ||
    (!Disturbs(acts[0], id) && !Slips(c, acts[0]) && acts[0] != Peek(c, Found(id)) && Undisturbed(acts[1..], c, id))
  }

  lemma {:induction false} WaitsStep(cfg: Config, s: State, a: Action, c: string, id: nat, due: int)
    requires Enabled(cfg, s, a) && ActorInv(cfg, s, a) && StoredInv(s, id) && LoopInv(cfg, s, c)
    requires Waits(s, c, id, due) && !Disturbs(a, id) && !Slips(c, a) && a != Peek(c, Found(id))
    ensures Waits(Apply(cfg, s, a), c, id, due)
  {
    RetryFreeStep(cfg, s, a, id);
    StoredStep(cfg, s, a, id);
    if !IsBy(a, Forwarder(c)) {
      FlightOfOthers(cfg, s, a, Forwarder(c));
      DueTimeStep(cfg, s, a, id);
    } else if !(a.Park? && Carries(s, c, id)) {
      DueTimeStep(cfg, s, a, id);
    }
  }

  lemma {:induction false} DueWhenPicked(cfg: Config, s: State, c: string, id: nat, due: int)
    requires LoopInv(cfg, s, c) && StoredInv(s, id) && Waits(s, c, id, due)
    requires Enabled(cfg, s, Peek(c, Found(id)))
    ensures due <= s.loops[c].now
  {
  }

  lemma {:induction false} WaitsOn(cfg: Config, s: State, acts: seq<Action>, c: string, id: nat, due: int)
    requires Bounded(cfg) && Inv(cfg, s) && IsRun(cfg, s, acts) && Waits(s, c, id, due)
    requires Undisturbed(acts, c, id)
    ensures Waits(Run(cfg, s, acts), c, id, due)
    decreases |acts|
  {
    if acts != [] {
      assert ActorInv(cfg, s, acts[0]) && LoopInv(cfg, s, c) && StoredInv(s, id);
      WaitsStep(cfg, s, acts[0], c, id, due);
      StepKeepsInv(cfg, s, acts[0]);
      WaitsOn(cfg, Apply(cfg, s, acts[0]), acts[1..], c, id, due);
    }
  }

  lemma {:induction false} WaitsUntilDue(cfg: Config, s: State, acts: seq<Action>, c: string, id: nat, due: int)
    requires Bounded(cfg) && Inv(cfg, s) && IsRun(cfg, s, acts) && Waits(s, c, id, due)
    requires Undisturbed(acts, c, id)
    requires Enabled(cfg, Run(cfg, s, acts), Peek(c, Found(id)))
    ensures due <= Run(cfg, s, acts).loops[c].now
  {
    var e := Run(cfg, s, acts);
    WaitsOn(cfg, s, acts, c, id, due);
    RunKeepsInv(cfg, s, acts);
    assert LoopInv(cfg, e, c) && StoredInv(e, id);
    DueWhenPicked(cfg, e, c, id, due);
  }

  /** Attempt spacing: between the answer that refused a webhook and the pass that next
      sends it lies at least the whole delay the schedule gave for that very attempt,
      whatever else runs meanwhile, unless the due time overflowed. */
  lemma {:induction false} AttemptsAreSpaced(cfg: Config, s: State, refusal: Action, acts: seq<Action>, c: string,
                                             id: nat)
    requires Bounded(cfg) && Inv(cfg, s) && RetryFree(s, id) && Carries(s, c, id)
    requires refusal.Respond? && refusal.who == Forwarder(c) && Enabled(cfg, s, refusal)
    requires c in cfg && !IsExpected(cfg[c], refusal.answer)
    requires IsRun(cfg, Apply(cfg, s, refusal), acts)
    requires Undisturbed(acts, c, id)
    requires Enabled(cfg, Run(cfg, Apply(cfg, s, refusal), acts), Peek(c, Found(id)))
    ensures var again := Run(cfg, Apply(cfg, s, refusal), acts);
            var delay := DelayOf(cfg[c], FlightOf(s, Forwarder(c)).sent, refusal.answer, refusal.unit);
            && DueAt(s.clock, delay) <= again.loops[c].now
            && (s.clock + cfg[c].max < TWO_TO_63 ==> s.clock + delay <= again.loops[c].now)
  {
    var s' := Apply(cfg, s, refusal);
    assert FlightInv(cfg, s, Forwarder(c));
    StepKeepsInv(cfg, s, refusal);
    RetryFreeStep(cfg, s, refusal, id);
    WaitsUntilDue(cfg, s', acts, c, id, FlightOf(s', Forwarder(c)).nextAt);
  }

  // ---- the pace of a rejected webhook ----

  /** The schedule makes a rejection without a requested delay wait for the ceiling. */
  ghost predicate RejectionWaits(target: Target) {
    forall attempts, unit :: target.delay(Rejected, attempts, None, unit) == target.max
  }

  predicate IsRejection(target: Target, answer: Answer) {
    KindOf(answer) == Rejected && RequestedDelay(answer).None?
  }

  /** Every answer to this webhook is the expected one or a plain rejection, and what the
      forwarder writes about it succeeds. */
  ghost predicate OnlyRejected(cfg: Config, s: State, acts: seq<Action>, c: string, id: nat)
    requires c in cfg
    decreases |acts|
  {
    acts == [] ||
    (var a := acts[0];
     && Enabled(cfg, s, a) && !Disturbs(a, id) && !(Slips(c, a) && Carries(s, c, id))
     && (a.Respond? && a.who == Forwarder(c) && Carries(s, c, id) ==>
           IsExpected(cfg[c], a.answer) || IsRejection(cfg[c], a.answer))
     && OnlyRejected(cfg, Apply(cfg, s, a), acts[1..], c, id))
  }

  /** Any attempt from here on belongs to a pass that starts no earlier than `start`. */
  ghost predicate NotBefore(s: State, c: string, id: nat, start: int, max: nat) {
    && RetryFree(s, id)
    && if Carries(s, c, id) then
         (if FlightOf(s, Forwarder(c)).Refused? then start <= FlightOf(s, Forwarder(c)).nextAt
          else start - max <= s.clock)
       else
         || id !in s.table.rows
         || (s.table.rows[id].nextAt.Some? && start <= s.table.rows[id].nextAt.value)
         || (start <= s.clock && (c in s.loops && s.loops[c].Peeking? ==> start <= s.loops[c].now))
  }

  lemma {:induction false} NotBeforeByOthers(cfg: Config, s: State, a: Action, c: string, id: nat, start: int)
    requires c in cfg && id in s.received
    requires Enabled(cfg, s, a) && ActorInv(cfg, s, a) && StoredInv(s, id)
    requires NotBefore(s, c, id, start, cfg[c].max) && !Disturbs(a, id) && !IsBy(a, Forwarder(c))
    requires s.received[id].channel == c
    ensures NotBefore(Apply(cfg, s, a), c, id, start, cfg[c].max)
  {
    RetryFreeStep(cfg, s, a, id);
    StoredStep(cfg, s, a, id);
    FlightOfOthers(cfg, s, a, Forwarder(c));
    DueTimeStep(cfg, s, a, id);
  }

  lemma {:induction false} NotBeforeByOwn(cfg: Config, s: State, a: Action, c: string, id: nat, start: int)
    requires c in cfg && RejectionWaits(cfg[c]) && id in s.received && s.received[id].channel == c
    requires Enabled(cfg, s, a) && ActorInv(cfg, s, a) && StoredInv(s, id) && LoopInv(cfg, s, c)
        && FlightInv(cfg, s, Forwarder(c))
    requires NotBefore(s, c, id, start, cfg[c].max) && OnlyRejected(cfg, s, [a], c, id) && IsBy(a, Forwarder(c))
    requires a != Peek(c, Found(id)) && s.clock + cfg[c].max < TWO_TO_63
    ensures NotBefore(Apply(cfg, s, a), c, id, start, cfg[c].max)
  {
    RetryFreeStep(cfg, s, a, id);
    StoredStep(cfg, s, a, id);
    if !(a.Park? && Carries(s, c, id)) {
      DueTimeStep(cfg, s, a, id);
    }
  }

  lemma {:induction false} NotBeforeAfterSend(cfg: Config, s: State, c: string, id: nat, start: int)
    requires c in cfg && LoopInv(cfg, s, c) && NotBefore(s, c, id, start, cfg[c].max)
    requires Enabled(cfg, s, Peek(c, Found(id)))
    ensures start <= s.clock
    ensures NotBefore(Apply(cfg, s, Peek(c, Found(id))), c, id, start + cfg[c].max, cfg[c].max)
  {
    RetryFreeStep(cfg, s, Peek(c, Found(id)), id);
  }

  /** How often the forwarder sent one webhook. */
  function Sends(acts: seq<Action>, c: string, id: nat): nat {
    if acts == [] then 0 else (if acts[0] == Peek(c, Found(id)) then 1 else 0) + Sends(acts[1..], c, id)
  }

  /** When the next attempt may start, once the action has happened. */
  function Next(a: Action, c: string, id: nat, start: int, max: nat): int {
    if a == Peek(c, Found(id)) then start + max else start
  }

  lemma {:induction false} NotBeforeStep(cfg: Config, s: State, a: Action, c: string, id: nat, start: int)
    requires c in cfg && RejectionWaits(cfg[c]) && id in s.received && s.received[id].channel == c
    requires Bounded(cfg) && Inv(cfg, s) && Enabled(cfg, s, a) && OnlyRejected(cfg, s, [a], c, id)
    requires NotBefore(s, c, id, start, cfg[c].max) && s.clock + cfg[c].max < TWO_TO_63
    ensures NotBefore(Apply(cfg, s, a), c, id, Next(a, c, id, start, cfg[c].max), cfg[c].max)
    ensures a == Peek(c, Found(id)) ==> start <= s.clock
    ensures s.clock <= Apply(cfg, s, a).clock
    ensures id in Apply(cfg, s, a).received && Apply(cfg, s, a).received[id].channel == c
  {
    assert ActorInv(cfg, s, a) && LoopInv(cfg, s, c) && FlightInv(cfg, s, Forwarder(c)) && StoredInv(s, id);
    StoredStep(cfg, s, a, id);
    if a == Peek(c, Found(id)) {
      NotBeforeAfterSend(cfg, s, c, id, start);
    } else if IsBy(a, Forwarder(c)) {
      NotBeforeByOwn(cfg, s, a, c, id, start);
    } else {
      NotBeforeByOthers(cfg, s, a, c, id, start);
    }
  }

  /** The time that lies between `n` sends. */
  function Gaps(n: nat, max: nat): nat {
    if n == 0 then 0 else Times(n - 1, max)
  }

  lemma {:induction false} RejectedPace(cfg: Config, s: State, acts: seq<Action>, c: string, id: nat, start: int)
    requires c in cfg && RejectionWaits(cfg[c]) && id in s.received && s.received[id].channel == c
    requires Bounded(cfg) && Inv(cfg, s) && IsRun(cfg, s, acts) && OnlyRejected(cfg, s, acts, c, id)
    requires NotBefore(s, c, id, start, cfg[c].max) && Run(cfg, s, acts).clock + cfg[c].max < TWO_TO_63
    ensures Sends(acts, c, id) > 0 ==> start + Gaps(Sends(acts, c, id), cfg[c].max) <= Run(cfg, s, acts).clock
    decreases |acts|
  {
    if acts != [] {
      var a, s' := acts[0], Apply(cfg, s, acts[0]);
      ClockGrows(cfg, s, acts);
      NotBeforeStep(cfg, s, a, c, id, start);
      StepKeepsInv(cfg, s, a);
      RejectedPace(cfg, s', acts[1..], c, id, Next(a, c, id, start, cfg[c].max));
    }
  }

  /** When the pass that may send next started, or would start now. */
  function PassStart(s: State, c: string): int {
    if c in s.loops && s.loops[c].Peeking? then s.loops[c].now else s.clock
  }

  /** A webhook the target keeps rejecting is sent n times only within a window of at
      least (n - 1) ceilings, however fast the forwarder passes over the queue: at most
      T/max + 1 times in any T seconds. */
  lemma {:induction false} RejectedRate(cfg: Config, s: State, acts: seq<Action>, c: string, id: nat)
    requires c in cfg && RejectionWaits(cfg[c]) && id in s.received && s.received[id].channel == c
    requires Bounded(cfg) && Inv(cfg, s) && IsRun(cfg, s, acts) && OnlyRejected(cfg, s, acts, c, id)
    requires RetryFree(s, id) && !Carries(s, c, id) && FitsUntil(cfg, Run(cfg, s, acts).clock)
    ensures Sends(acts, c, id) > 0 ==>
              (Sends(acts, c, id) - 1) * cfg[c].max <= Run(cfg, s, acts).clock - PassStart(s, c)
  {
    assert LoopInv(cfg, s, c);
    RejectedPace(cfg, s, acts, c, id, PassStart(s, c));
    if Sends(acts, c, id) > 0 {
      TimesMultiply(Sends(acts, c, id) - 1, cfg[c].max);
    }
  }
}
