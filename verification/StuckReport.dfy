/** The one error report a permanently stuck webhook is meant to raise. */
module StuckReport {
  import opened Protocol
  import opened Invariant

  /** 1 once the forwarder cannot report the webhook again without a failed record: the
      row has left or counts ten failures, and none in flight is about to cross. */
  function Spent(s: State, id: nat): nat
    requires id in s.received
  {
    var who := Forwarder(s.received[id].channel);
    if InFlight(s, who) && FlightOf(s, who).id == id then
      if FlightOf(s, who).sent.attempts < STUCK_ATTEMPTS_THRESHOLD then 0 else 1
    else if id in s.table.rows && s.recorded[id] < STUCK_ATTEMPTS_THRESHOLD then 0 else 1
  }

  ghost predicate AtMostInv(s: State, id: nat) {
    s.stuck[id] <= if id in s.received then s.failedRecords[id] + Spent(s, id) else 0
  }

  /** Without manual retries the attempt number the forwarder holds is never stale, so
      the crossing cannot be missed. */
  ghost predicate AtLeastInv(s: State, id: nat) {
    id in s.received && (forall task :: task in s.started ==> s.started[task] != id) ==>
      var who := Forwarder(s.received[id].channel);
      && (InFlight(s, who) && FlightOf(s, who).id == id ==> FlightOf(s, who).sent.attempts == s.recorded[id])
      && (s.recorded[id] >= STUCK_ATTEMPTS_THRESHOLD ==> s.stuck[id] >= 1)
  }

  /** Nothing is reported before its tenth attempt. */
  ghost predicate NotEarlyInv(s: State, id: nat) {
    s.stuck[id] > 0 ==> s.recorded[id] >= 9
  }

  lemma {:induction false} NotEarlyStep(cfg: Config, s: State, a: Action, id: nat)
    requires Enabled(cfg, s, a) && ActorInv(cfg, s, a) && NotEarlyInv(s, id)
    ensures NotEarlyInv(Apply(cfg, s, a), id)
  {
    LogGrows(cfg, s, a, id);
  }

  /** What the first two invariants need to know about the state they start from. */
  ghost predicate Context(cfg: Config, s: State, a: Action, id: nat) {
    && ActorInv(cfg, s, a) && StoredInv(s, id) && BookkeepingInv(cfg, s, id)
    && (a.Receive? ==> FlightInv(cfg, s, Forwarder(a.content.channel)))
    && (id in s.received ==>
          LoopInv(cfg, s, s.received[id].channel) && FlightInv(cfg, s, Forwarder(s.received[id].channel)))
  }

  lemma {:induction false} AtMostByOthers(cfg: Config, s: State, a: Action, id: nat)
    requires Enabled(cfg, s, a) && Context(cfg, s, a, id) && AtMostInv(s, id)
    requires id in s.received && !IsBy(a, Forwarder(s.received[id].channel)) && !a.Restart?
    ensures AtMostInv(Apply(cfg, s, a), id)
  {
    FlightOfOthers(cfg, s, a, Forwarder(s.received[id].channel));
    LogGrows(cfg, s, a, id);
    assert Apply(cfg, s, a).stuck[id] == s.stuck[id];
  }

  lemma {:induction false} AtMostByOwn(cfg: Config, s: State, a: Action, id: nat)
    requires Enabled(cfg, s, a) && Context(cfg, s, a, id) && AtMostInv(s, id)
    requires id in s.received && IsBy(a, Forwarder(s.received[id].channel))
    ensures AtMostInv(Apply(cfg, s, a), id)
  {
    assert id in Apply(cfg, s, a).table.rows ==> id in s.table.rows;
  }

  lemma {:induction false} AtMostStep(cfg: Config, s: State, a: Action, id: nat)
    requires Enabled(cfg, s, a) && Context(cfg, s, a, id) && AtMostInv(s, id)
    ensures AtMostInv(Apply(cfg, s, a), id)
  {
    if id in s.received && !a.Restart? {
      if IsBy(a, Forwarder(s.received[id].channel)) {
        AtMostByOwn(cfg, s, a, id);
      } else {
        AtMostByOthers(cfg, s, a, id);
      }
    }
  }

  lemma {:induction false} AtLeastByOthers(cfg: Config, s: State, a: Action, id: nat)
    requires Enabled(cfg, s, a) && Context(cfg, s, a, id) && AtLeastInv(s, id)
    requires id in s.received && !IsBy(a, Forwarder(s.received[id].channel)) && !a.Restart?
    ensures AtLeastInv(Apply(cfg, s, a), id)
  {
    FlightOfOthers(cfg, s, a, Forwarder(s.received[id].channel));
    var started := Apply(cfg, s, a).started;
    assert forall task :: task in s.started ==> task in started && started[task] == s.started[task];
    assert a.Park? ==> FlightOf(s, a.who).id != id || a.who.Retry?;
  }

  lemma {:induction false} AtLeastByOwn(cfg: Config, s: State, a: Action, id: nat)
    requires Enabled(cfg, s, a) && Context(cfg, s, a, id) && AtLeastInv(s, id)
    requires id in s.received && IsBy(a, Forwarder(s.received[id].channel))
    ensures AtLeastInv(Apply(cfg, s, a), id)
  {
  }

  lemma {:induction false} AtLeastStep(cfg: Config, s: State, a: Action, id: nat)
    requires Enabled(cfg, s, a) && Context(cfg, s, a, id) && AtLeastInv(s, id)
    ensures AtLeastInv(Apply(cfg, s, a), id)
  {
    if id in s.received && !a.Restart? {
      if IsBy(a, Forwarder(s.received[id].channel)) {
        AtLeastByOwn(cfg, s, a, id);
      } else {
        AtLeastByOthers(cfg, s, a, id);
      }
    }
  }

  lemma {:induction false} RunKeepsAll(cfg: Config, s: State, acts: seq<Action>, id: nat)
    requires Bounded(cfg) && Inv(cfg, s) && IsRun(cfg, s, acts)
    requires AtMostInv(s, id) && AtLeastInv(s, id) && NotEarlyInv(s, id)
    ensures AtMostInv(Run(cfg, s, acts), id) && AtLeastInv(Run(cfg, s, acts), id) && NotEarlyInv(Run(cfg, s, acts), id)
    decreases |acts|
  {
    if acts != [] {
      assert Context(cfg, s, acts[0], id);
      AtMostStep(cfg, s, acts[0], id);
      AtLeastStep(cfg, s, acts[0], id);
      NotEarlyStep(cfg, s, acts[0], id);
      StepKeepsInv(cfg, s, acts[0]);
      RunKeepsAll(cfg, Apply(cfg, s, acts[0]), acts[1..], id);
    }
  }

  /** A webhook is reported at most once more than its failed records, never before its tenth
      attempt has failed, and once it has ten recorded failures it has been reported, unless a
      manual retry was among its senders. With every record written, that is exactly one report. */
  lemma {:induction false} ReportedOnce(cfg: Config, clock: nat, acts: seq<Action>, id: nat)
    requires Bounded(cfg) && IsRun(cfg, Initial(cfg, clock), acts)
    ensures var e := Run(cfg, Initial(cfg, clock), acts);
            && e.stuck[id] <= 1 + e.failedRecords[id]
            && (e.stuck[id] > 0 ==> 9 <= e.recorded[id])
            && (e.recorded[id] >= 10
                && (forall task :: task in e.started ==> e.started[task] != id)
                ==> 1 <= e.stuck[id])
  {
    InitialInv(cfg, clock);
    RunKeepsInv(cfg, Initial(cfg, clock), acts);
    RunKeepsAll(cfg, Initial(cfg, clock), acts, id);
    assert BookkeepingInv(cfg, Run(cfg, Initial(cfg, clock), acts), id);
  }
}
