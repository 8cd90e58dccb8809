/** The forwarder's loop: pausing it, draining a queue with it, and never sending the
    same webhook twice without sleeping in between. */
module Draining {
  import opened Sets
  import opened Webhooks
  import opened Protocol
  import opened Invariant

  predicate StartsSend(c: string, a: Action) {
    a.Peek? && a.channel == c && a.peeked.Found?
  }

  predicate EndsSend(c: string, a: Action) {
    a.Respond? && a.who == Forwarder(c)
  }

  /** The ids the forwarder of a channel sent, in order. */
  function Sent(acts: seq<Action>, c: string): seq<nat> {
    if acts == [] then []
    else (if StartsSend(c, acts[0]) then [acts[0].peeked.id] else []) + Sent(acts[1..], c)
  }

  // ---- pause ----

  /** The run leaves the pause of the channel alone. */
  predicate StaysPaused(acts: seq<Action>, c: string) {
    acts == [] || (acts[0] != Resume(c) && !acts[0].Restart? && StaysPaused(acts[1..], c))
  }

  /** How many sends the forwarder starts in a run. */
  function Starts(acts: seq<Action>, c: string): nat {
    if acts == [] then 0 else (if StartsSend(c, acts[0]) then 1 else 0) + Starts(acts[1..], c)
  }

  /** How many answers reach the forwarder in a run. */
  function Answered(acts: seq<Action>, c: string): nat {
    if acts == [] then 0 else (if EndsSend(c, acts[0]) then 1 else 0) + Answered(acts[1..], c)
  }

  /** Sends that can still start, and answers that can still arrive, while paused. */
  function StartsLeft(s: State, c: string): nat {
    if c in s.loops && s.loops[c].Peeking? then 1 else 0
  }

  function AnswersLeft(s: State, c: string): nat {
    if StartsLeft(s, c) == 1 || (InFlight(s, Forwarder(c)) && FlightOf(s, Forwarder(c)).Sending?) then 1 else 0
  }

  lemma {:induction false} PausedStep(cfg: Config, s: State, a: Action, c: string)
    requires Enabled(cfg, s, a) && LoopInv(cfg, s, c)
    requires c in s.paused && a != Resume(c) && !a.Restart?
    ensures var s' := Apply(cfg, s, a);
            && c in s'.paused
            && StartsLeft(s', c) + (if StartsSend(c, a) then 1 else 0) <= StartsLeft(s, c)
            && AnswersLeft(s', c) + (if EndsSend(c, a) then 1 else 0) <= AnswersLeft(s, c)
  {
  }

  /** While a channel stays paused its forwarder starts at most one more send, and sees at
      most one more answer; none at all unless the pass was already past its check. */
  lemma {:induction false} PauseStopsSending(cfg: Config, s: State, acts: seq<Action>, c: string)
    requires Bounded(cfg) && Inv(cfg, s) && IsRun(cfg, s, acts)
    requires c in s.paused && StaysPaused(acts, c)
    ensures Starts(acts, c) <= StartsLeft(s, c)
    ensures Answered(acts, c) <= AnswersLeft(s, c)
    ensures At(s, c, Checking) || At(s, c, Sleeping) ==> AnswersLeft(s, c) == 0
    decreases |acts|
  {
    assert LoopInv(cfg, s, c);
    if acts != [] {
      PausedStep(cfg, s, acts[0], c);
      StepKeepsInv(cfg, s, acts[0]);
      PauseStopsSending(cfg, Apply(cfg, s, acts[0]), acts[1..], c);
    }
  }

  // ---- drain ----

  /** The rows the forwarder of a channel can still take out of the table. */
  function Pending(s: State, c: string): set<nat> {
    InChannel(s.table, c) + (if InFlight(s, Forwarder(c)) then {FlightOf(s, Forwarder(c)).id} else {})
  }

  /** A pass over the queue ended as drained. */
  predicate Drains(c: string, a: Action) {
    a == Forget(Forwarder(c), true)
  }

  /** How many passes of a run end as drained. */
  function Drained(acts: seq<Action>, c: string): nat {
    if acts == [] then 0 else (if Drains(c, acts[0]) then 1 else 0) + Drained(acts[1..], c)
  }

  predicate NothingReceived(acts: seq<Action>, c: string) {
    acts == [] || ((acts[0].Receive? ==> acts[0].content.channel != c) && NothingReceived(acts[1..], c))
  }

  lemma {:induction false} PendingByOthers(cfg: Config, s: State, a: Action, c: string)
    requires Enabled(cfg, s, a) && ActorInv(cfg, s, a) && !IsBy(a, Forwarder(c)) && !a.Restart?
    requires a.Receive? ==> a.content.channel != c
    ensures Pending(Apply(cfg, s, a), c) <= Pending(s, c)
  {
    FlightOfOthers(cfg, s, a, Forwarder(c));
  }

  lemma {:induction false} PendingByOwn(cfg: Config, s: State, a: Action, c: string)
    requires Enabled(cfg, s, a) && FlightInv(cfg, s, Forwarder(c)) && (IsBy(a, Forwarder(c)) || a.Restart?)
    ensures Pending(Apply(cfg, s, a), c) <= Pending(s, c)
    ensures Drains(c, a) ==> InFlight(s, Forwarder(c)) && FlightOf(s, Forwarder(c)).id in Pending(s, c)
                             && FlightOf(s, Forwarder(c)).id !in Pending(Apply(cfg, s, a), c)
  {
  }

  lemma {:induction false} DrainStep(cfg: Config, s: State, a: Action, c: string)
    requires Enabled(cfg, s, a) && ActorInv(cfg, s, a) && FlightInv(cfg, s, Forwarder(c))
    requires a.Receive? ==> a.content.channel != c
    ensures Pending(Apply(cfg, s, a), c) <= Pending(s, c)
    ensures Drains(c, a) ==> InFlight(s, Forwarder(c)) && FlightOf(s, Forwarder(c)).id in Pending(s, c)
                             && FlightOf(s, Forwarder(c)).id !in Pending(Apply(cfg, s, a), c)
  {
    if IsBy(a, Forwarder(c)) || a.Restart? {
      PendingByOwn(cfg, s, a, c);
    } else {
      PendingByOthers(cfg, s, a, c);
    }
  }

  /** A drained pass leaves the forwarder at least one row fewer to take. */
  lemma {:induction false} DrainShrinks(cfg: Config, s: State, a: Action, c: string)
    requires Enabled(cfg, s, a) && ActorInv(cfg, s, a) && FlightInv(cfg, s, Forwarder(c))
    requires a.Receive? ==> a.content.channel != c
    ensures |Pending(Apply(cfg, s, a), c)| + (if Drains(c, a) then 1 else 0) <= |Pending(s, c)|
  {
    DrainStep(cfg, s, a, c);
    if Drains(c, a) {
      SubsetSize(Pending(Apply(cfg, s, a), c), Pending(s, c) - {FlightOf(s, Forwarder(c)).id});
    } else {
      SubsetSize(Pending(Apply(cfg, s, a), c), Pending(s, c));
    }
  }

  /** Draining terminates: as long as nothing is received for the channel, the loop ends
      no more passes as drained than there were rows to take. */
  lemma {:induction false} DrainingTerminates(cfg: Config, s: State, acts: seq<Action>, c: string)
    requires Bounded(cfg) && Inv(cfg, s) && IsRun(cfg, s, acts)
    requires NothingReceived(acts, c)
    ensures |Pending(Run(cfg, s, acts), c)| + Drained(acts, c) <= |Pending(s, c)|
    decreases |acts|
  {
    if acts != [] {
      var a, s' := acts[0], Apply(cfg, s, acts[0]);
      assert ActorInv(cfg, s, a) && FlightInv(cfg, s, Forwarder(c));
      DrainShrinks(cfg, s, a, c);
      StepKeepsInv(cfg, s, a);
      DrainingTerminates(cfg, s', acts[1..], c);
    }
  }

  // ---- no resend without a sleep ----

  /** The forwarder cannot send the webhook before it has slept. */
  ghost predicate Held(s: State, c: string, id: nat) {
    && id in s.received
    && (id !in s.table.rows || At(s, c, Sleeping)
        || (InFlight(s, Forwarder(c)) && FlightOf(s, Forwarder(c)).id == id))
  }

  /** The forwarder neither sleeps through an interval nor starts afresh. */
  predicate NeverWakes(acts: seq<Action>, c: string) {
    acts == [] || (acts[0] != Wake(c) && !acts[0].Restart? && NeverWakes(acts[1..], c))
  }

  lemma {:induction false} HeldStep(cfg: Config, s: State, a: Action, c: string, id: nat)
    requires Enabled(cfg, s, a) && ActorInv(cfg, s, a) && LoopInv(cfg, s, c) && StoredInv(s, id)
    requires c in cfg && Held(s, c, id) && a != Wake(c) && !a.Restart?
    ensures Held(Apply(cfg, s, a), c, id)
    ensures a != Peek(c, Found(id))
  {
    if !IsBy(a, Forwarder(c)) {
      FlightOfOthers(cfg, s, a, Forwarder(c));
    }
    StoredStep(cfg, s, a, id);
    DepartureStep(cfg, s, a, id);
  }

  lemma {:induction false} HeldIsNotSent(cfg: Config, s: State, acts: seq<Action>, c: string, id: nat)
    requires Bounded(cfg) && Inv(cfg, s) && IsRun(cfg, s, acts)
    requires c in cfg && Held(s, c, id) && NeverWakes(acts, c)
    ensures id !in Sent(acts, c)
    decreases |acts|
  {
    if acts != [] {
      assert ActorInv(cfg, s, acts[0]) && LoopInv(cfg, s, c) && StoredInv(s, id);
      HeldStep(cfg, s, acts[0], c, id);
      StepKeepsInv(cfg, s, acts[0]);
      HeldIsNotSent(cfg, Apply(cfg, s, acts[0]), acts[1..], c, id);
    }
  }

  /** Between two sends of one webhook the forwarder has slept: after a delivery whose
      delete failed, or any failure, it never sends the same row again at once. */
  lemma {:induction false} NoResendWithoutSleep(cfg: Config, s: State, acts: seq<Action>, c: string)
    requires Bounded(cfg) && Inv(cfg, s) && IsRun(cfg, s, acts)
    requires c in cfg && NeverWakes(acts, c)
    ensures Distinct(Sent(acts, c))
    decreases |acts|
  {
    if acts != [] {
      var a, s' := acts[0], Apply(cfg, s, acts[0]);
      StepKeepsInv(cfg, s, a);
      NoResendWithoutSleep(cfg, s', acts[1..], c);
      if StartsSend(c, a) {
        assert StoredInv(s, a.peeked.id);
        HeldIsNotSent(cfg, s', acts[1..], c, a.peeked.id);
      }
    }
  }
}
