/** What every reachable state of the queue protocol satisfies. The invariant is stated
    for one webhook, channel, actor or task at a time, so that each step is checked
    against the few facts it touches. */
module Invariant {
  import opened Backoff
  import opened Webhooks
  import opened Protocol

  /** A received webhook is stored or has left, never both; its content never changes. */
  ghost predicate StoredInv(s: State, id: nat) {
    && (id in s.table.rows || id in s.gone <==> id in s.received)
    && !(id in s.table.rows && id in s.gone)
    && (id in s.received ==> id <= s.table.highWater)
    && (id in s.table.rows ==> s.table.rows[id].content == s.received[id])
  }

  /** A row that left because it was delivered was accepted by the target. */
  ghost predicate CauseInv(s: State, id: nat) {
    id in s.gone ==>
      match s.gone[id]
      case ByForwarder => s.forwarded[id] > 0
      case ByRetry(task) => task in s.accepted && task in s.started && s.started[task] == id
      case _ => true
  }

  /** 1 when the forwarder may have delivered the webhook once more than its failed
      deletes and the restarts explain, 0 while it is certain that it has not. */
  function Owed(s: State, id: nat): nat
    requires id in s.received
  {
    var who := Forwarder(s.received[id].channel);
    if InFlight(s, who) && FlightOf(s, who).id == id then
      if FlightOf(s, who).Delivered? then 1 else 0
    else if id in s.table.rows then 0 else 1
  }

  ghost predicate DeliveriesInv(s: State, id: nat) {
    s.forwarded[id] <=
      if id in s.received then s.failedDeletes[id] + s.restarts + Owed(s, id) else 0
  }

  /** The bookkeeping columns: all absent before the first recorded failure, all present
      after it, counting exactly the recorded failures, never parked beyond the ceiling. */
  ghost predicate RowInv(cfg: Config, row: Row, recorded: nat, clock: int) {
    && row.attempts == recorded
    && (row.attempts == 0 <==> row.lastAt.None?)
    && (row.attempts == 0 <==> row.lastError.None?)
    && (row.attempts == 0 <==> row.nextAt.None?)
    && (row.attempts > 0 ==>
          && row.content.channel in cfg
          && row.lastAt.value <= clock
          && row.nextAt.value <= row.lastAt.value + cfg[row.content.channel].max)
  }

  ghost predicate BookkeepingInv(cfg: Config, s: State, id: nat) {
    && (id in s.table.rows ==> RowInv(cfg, s.table.rows[id], s.recorded[id], s.clock))
    && (id !in s.received ==> s.recorded[id] == 0)
  }

  /** A flight carries the content its row was received with, for a channel that forwards. */
  ghost predicate FlightInv(cfg: Config, s: State, who: Actor) {
    InFlight(s, who) ==>
      var f := FlightOf(s, who);
      && f.id in s.received
      && f.sent.content == s.received[f.id]
      && ChannelOf(f) in cfg
      && 0 <= f.sent.attempts <= s.recorded[f.id]
      && (f.Refused? ==>
            && f.refusedAt <= s.clock && f.nextAt <= f.refusedAt + cfg[ChannelOf(f)].max
            && (f.refusedAt + cfg[ChannelOf(f)].max < TWO_TO_63 ==> f.refusedAt <= f.nextAt))
      && match who
         case Forwarder(c) => c == ChannelOf(f) && (f.Delivered? ==> s.forwarded[f.id] > 0)
         case Retry(task) =>
           && task in s.started && s.started[task] == f.id
           && (f.Delivered? <==> task in s.accepted)
  }

  ghost predicate TaskInv(s: State, task: nat) {
    && (task in s.accepted ==> task in s.started)
    && (task in s.started ==> s.started[task] in s.received)
  }

  ghost predicate LoopInv(cfg: Config, s: State, c: string) {
    && (c in s.loops <==> c in cfg)
    && (InFlight(s, Forwarder(c)) ==> c in cfg)
    && (c in s.loops ==> (s.loops[c] == Flying <==> InFlight(s, Forwarder(c))))
    && (c in s.loops && s.loops[c].Peeking? ==> s.loops[c].now <= s.clock)
  }

  ghost predicate Inv(cfg: Config, s: State) {
    && (forall id :: StoredInv(s, id))
    && (forall id :: CauseInv(s, id))
    && (forall id :: DeliveriesInv(s, id))
    && (forall id :: BookkeepingInv(cfg, s, id))
    && (forall who :: FlightInv(cfg, s, who))
    && (forall task :: TaskInv(s, task))
    && (forall c :: LoopInv(cfg, s, c))
  }

  lemma {:induction false} InitialInv(cfg: Config, clock: nat)
    ensures Inv(cfg, Initial(cfg, clock))
  {
  }

  /** What a step needs to know about the actor that takes it. */
  ghost predicate ActorInv(cfg: Config, s: State, a: Action) {
    match a
    case Receive(id, _) => StoredInv(s, id)
    case Check(c) => LoopInv(cfg, s, c)
    case Peek(c, peeked) => LoopInv(cfg, s, c)
        && (peeked.Found? ==> StoredInv(s, peeked.id) && BookkeepingInv(cfg, s, peeked.id))
    case Load(task, id) => FlightInv(cfg, s, Retry(task)) && TaskInv(s, task) && StoredInv(s, id)
        && BookkeepingInv(cfg, s, id)
    case Abandon(who) => FlightInv(cfg, s, who)
    case Respond(who, _, _, _) => FlightInv(cfg, s, who)
    case Forget(who, _) => FlightInv(cfg, s, who)
    case Park(who, _, _) => FlightInv(cfg, s, who)
    case _ => true
  }

  lemma {:induction false} StoredStep(cfg: Config, s: State, a: Action, id: nat)
    requires Enabled(cfg, s, a) && ActorInv(cfg, s, a) && StoredInv(s, id)
    ensures StoredInv(Apply(cfg, s, a), id)
    ensures id in s.received ==>
              id in Apply(cfg, s, a).received && Apply(cfg, s, a).received[id] == s.received[id]
  {
  }

  /** A row that leaves is never stored again, and leaves by the action that takes it. */
  lemma {:induction false} DepartureStep(cfg: Config, s: State, a: Action, id: nat)
    requires Enabled(cfg, s, a) && ActorInv(cfg, s, a) && StoredInv(s, id)
    ensures var s' := Apply(cfg, s, a);
            && (id in s.gone ==> id in s'.gone && s'.gone[id] == s.gone[id])
            && (id in s.received && id in s'.table.rows ==> id in s.table.rows)
            && (id in s'.gone && id !in s.gone ==>
                Removes(a) && id in s.table.rows && id in Taken(s, a) && s'.gone[id] == CauseOf(a))
            && s.clock <= s'.clock
  {
  }

  lemma {:induction false} CauseStep(cfg: Config, s: State, a: Action, id: nat)
    requires Enabled(cfg, s, a) && ActorInv(cfg, s, a) && StoredInv(s, id) && CauseInv(s, id)
    ensures CauseInv(Apply(cfg, s, a), id)
  {
  }

  /** Nobody but the actor itself, or a restart, changes what it has in flight. */
  lemma {:induction false} FlightOfOthers(cfg: Config, s: State, a: Action, who: Actor)
    requires Enabled(cfg, s, a) && !IsBy(a, who) && !a.Restart?
    ensures InFlight(Apply(cfg, s, a), who) <==> InFlight(s, who)
    ensures InFlight(s, who) ==> FlightOf(Apply(cfg, s, a), who) == FlightOf(s, who)
    ensures who.Forwarder? ==>
              (who.channel in Apply(cfg, s, a).loops <==> who.channel in s.loops)
    ensures who.Forwarder? && who.channel in s.loops ==>
              Apply(cfg, s, a).loops[who.channel] == s.loops[who.channel]
    ensures who.Retry? && who.task in s.started ==>
              && who.task in Apply(cfg, s, a).started
              && Apply(cfg, s, a).started[who.task] == s.started[who.task]
              && (who.task in Apply(cfg, s, a).accepted <==> who.task in s.accepted)
  {
  }

  lemma {:induction false} DeliveriesOfOthers(cfg: Config, s: State, a: Action, id: nat)
    requires Enabled(cfg, s, a) && ActorInv(cfg, s, a) && StoredInv(s, id) && DeliveriesInv(s, id)
    requires id in s.received && !IsBy(a, Forwarder(s.received[id].channel)) && !a.Restart?
    ensures DeliveriesInv(Apply(cfg, s, a), id)
  {
    FlightOfOthers(cfg, s, a, Forwarder(s.received[id].channel));
    assert Apply(cfg, s, a).forwarded[id] == s.forwarded[id];
  }

  lemma {:induction false} DeliveriesOfOwn(cfg: Config, s: State, a: Action, id: nat)
    requires Enabled(cfg, s, a) && StoredInv(s, id) && DeliveriesInv(s, id)
    requires id in s.received && IsBy(a, Forwarder(s.received[id].channel))
    requires LoopInv(cfg, s, s.received[id].channel)
    ensures DeliveriesInv(Apply(cfg, s, a), id)
  {
    assert id in Apply(cfg, s, a).table.rows ==> id in s.table.rows;
  }

  lemma {:induction false} DeliveriesStep(cfg: Config, s: State, a: Action, id: nat)
    requires Enabled(cfg, s, a) && ActorInv(cfg, s, a) && StoredInv(s, id) && DeliveriesInv(s, id)
    requires id in s.received ==> LoopInv(cfg, s, s.received[id].channel)
    ensures DeliveriesInv(Apply(cfg, s, a), id)
  {
    if id in s.received && !a.Restart? {
      if IsBy(a, Forwarder(s.received[id].channel)) {
        DeliveriesOfOwn(cfg, s, a, id);
      } else {
        DeliveriesOfOthers(cfg, s, a, id);
      }
    }
  }

  lemma {:induction false} BookkeepingStep(cfg: Config, s: State, a: Action, id: nat)
    requires Enabled(cfg, s, a) && ActorInv(cfg, s, a) && StoredInv(s, id) && BookkeepingInv(cfg, s, id)
    ensures BookkeepingInv(cfg, Apply(cfg, s, a), id)
  {
  }

  /** Content is only added and counts only grow. */
  lemma {:induction false} LogGrows(cfg: Config, s: State, a: Action, id: nat)
    requires Enabled(cfg, s, a) && ActorInv(cfg, s, a)
    ensures var s' := Apply(cfg, s, a);
            && (id in s.received ==> id in s'.received && s'.received[id] == s.received[id])
            && s.recorded[id] <= s'.recorded[id]
            && s.forwarded[id] <= s'.forwarded[id]
            && s.clock <= s'.clock
  {
  }

  lemma {:induction false} FlightAnswered(cfg: Config, s: State, a: Action)
    requires Bounded(cfg) && Enabled(cfg, s, a) && a.Respond? && FlightInv(cfg, s, a.who)
    ensures FlightInv(cfg, Apply(cfg, s, a), a.who)
  {
    var f := FlightOf(s, a.who);
    assert DelayOf(cfg[ChannelOf(f)], f.sent, a.answer, a.unit) <= cfg[ChannelOf(f)].max;
  }

  lemma {:induction false} FlightStarted(cfg: Config, s: State, a: Action, who: Actor)
    requires Enabled(cfg, s, a) && ActorInv(cfg, s, a) && IsBy(a, who) && (a.Peek? || a.Load?)
    requires FlightInv(cfg, s, who)
    ensures FlightInv(cfg, Apply(cfg, s, a), who)
  {
  }

  lemma {:induction false} FlightStep(cfg: Config, s: State, a: Action, who: Actor)
    requires Bounded(cfg) && Enabled(cfg, s, a) && ActorInv(cfg, s, a) && FlightInv(cfg, s, who)
    requires who.Forwarder? ==> LoopInv(cfg, s, who.channel)
    ensures FlightInv(cfg, Apply(cfg, s, a), who)
  {
    if a.Respond? && a.who == who {
      FlightAnswered(cfg, s, a);
    } else if IsBy(a, who) && (a.Peek? || a.Load?) {
      FlightStarted(cfg, s, a, who);
    } else if IsBy(a, who) || a.Restart? {
      assert !InFlight(Apply(cfg, s, a), who);
    } else {
      FlightOfOthers(cfg, s, a, who);
      if InFlight(s, who) {
        LogGrows(cfg, s, a, FlightOf(s, who).id);
      }
    }
  }

  lemma {:induction false} TaskStep(cfg: Config, s: State, a: Action, task: nat)
    requires Enabled(cfg, s, a) && ActorInv(cfg, s, a) && TaskInv(s, task)
    ensures TaskInv(Apply(cfg, s, a), task)
  {
  }

  lemma {:induction false} LoopStep(cfg: Config, s: State, a: Action, c: string)
    requires Enabled(cfg, s, a) && ActorInv(cfg, s, a) && LoopInv(cfg, s, c)
    ensures LoopInv(cfg, Apply(cfg, s, a), c)
  {
  }

  /** Every step of every actor keeps the invariant. */
  lemma {:induction false} StepKeepsInv(cfg: Config, s: State, a: Action)
    requires Bounded(cfg) && Inv(cfg, s) && Enabled(cfg, s, a)
    ensures Inv(cfg, Apply(cfg, s, a))
  {
    var s' := Apply(cfg, s, a);
    assert ActorInv(cfg, s, a);
    forall id ensures StoredInv(s', id) && CauseInv(s', id) {
      StoredStep(cfg, s, a, id);
      CauseStep(cfg, s, a, id);
    }
    forall id ensures DeliveriesInv(s', id) && BookkeepingInv(cfg, s', id) {
      DeliveriesStep(cfg, s, a, id);
      BookkeepingStep(cfg, s, a, id);
    }
    forall who ensures FlightInv(cfg, s', who) {
      FlightStep(cfg, s, a, who);
    }
    forall task ensures TaskInv(s', task) {
      TaskStep(cfg, s, a, task);
    }
    forall c ensures LoopInv(cfg, s', c) {
      LoopStep(cfg, s, a, c);
    }
  }

  lemma {:induction false} RunKeepsInv(cfg: Config, s: State, acts: seq<Action>)
    requires Bounded(cfg) && Inv(cfg, s) && IsRun(cfg, s, acts)
    ensures Inv(cfg, Run(cfg, s, acts))
    decreases |acts|
  {
    if acts != [] {
      StepKeepsInv(cfg, s, acts[0]);
      RunKeepsInv(cfg, Apply(cfg, s, acts[0]), acts[1..]);
    }
  }
}
