/** The background forwarder (src/bin/kwp/background/forward.rs) and the manual retry
    (src/bin/kwp/route/queue.rs): the code between the database calls. */
module Forwarding {
  import opened Wrappers
  import opened Backoff
  import opened Webhooks
  import opened Protocol
  import opened Invariant
  import opened Guarantees
  import opened Preview
  import opened RetryAfter
  import opened Process
  import opened Configuration
  import opened Requests
  import opened Schedules

  datatype Progress = Drained | Idle

  /** How a pass ended; a panic ends the process with it. */
  type Outcome = Result<Progress, Panic>

  /** What came back for a request: the answer, and the text of its body or the cause of the
      network error. */
  datatype Reply = Reply(answer: Answer, text: string)

  /** The message stored with a failure. */
  function FailureMessage(answer: Answer, text: string): string {
    match answer
    case NetworkError => "network error: " + text
    case Response(status, _) => "HTTP " + Decimal(status) + ": " + text
  }

  /** The forwarder's message holds only a preview of a body. */
  function Describe(reply: Reply): Result<string, Panic> {
    var text :- if reply.answer.NetworkError? then Success(reply.text) else ReadBodyPreview(reply.text);
    Success(FailureMessage(reply.answer, text))
  }

  /** A delivery is an answer with exactly the expected status. */
  predicate IsDelivery(answer: Answer, expectedStatus: nat) {
    match answer
    case NetworkError => false
    case Response(status, _) => status == expectedStatus
  }

  /** The message names the failure: the cause, or the status with a preview of the body. */
  ghost predicate IsMessage(message: string, reply: Reply) {
    match reply.answer
    case NetworkError => message == "network error: " + reply.text
    case Response(status, _) =>
      exists preview :: IsPreview(reply.text, preview) && message == "HTTP " + Decimal(status) + ": " + preview
  }

  /** Where the loop is after a pass. */
  function LoopAfter(outcome: Outcome): Loop {
    if outcome == Success(Idle) then Sleeping else Checking
  }

  /** The log has kept what was in it. */
  ghost predicate Extends(log: map<nat, Content>, more: map<nat, Content>) {
    forall id :: id in log ==> id in more && more[id] == log[id]
  }

  lemma {:induction false} LogGrowsAlong(cfg: Config, start: nat, before: seq<Action>, after: seq<Action>)
    requires Bounded(cfg) && IsRun(cfg, Initial(cfg, start), after) && before <= after
    ensures IsRun(cfg, Initial(cfg, start), before)
    ensures Extends(Run(cfg, Initial(cfg, start), before).received, Run(cfg, Initial(cfg, start), after).received)
  {
    var s, more := Initial(cfg, start), after[|before|..];
    assert after == before + more;
    RunSplits(cfg, s, before, more);
    var middle := Run(cfg, s, before);
    InitialInv(cfg, start);
    RunKeepsInv(cfg, s, before);
    forall id | id in middle.received
      ensures id in Run(cfg, s, after).received && Run(cfg, s, after).received[id] == middle.received[id]
    {
      LogStays(cfg, middle, more, id);
    }
  }

  lemma {:induction false} RowIsLogged(cfg: Config, start: nat, trace: seq<Action>, id: nat)
    requires Bounded(cfg) && IsRun(cfg, Initial(cfg, start), trace)
    ensures var s := Run(cfg, Initial(cfg, start), trace);
            id in s.table.rows ==> id in s.received && s.table.rows[id].content == s.received[id]
  {
    InitialInv(cfg, start);
    RunKeepsInv(cfg, Initial(cfg, start), trace);
    assert StoredInv(Run(cfg, Initial(cfg, start), trace), id);
  }

  class Forwarder {
    const shared: Shared
    const channel: string
    const config: ChannelConfig
    const cfg: ForwardConfig
    const backoff: SafeBackoff
    const ignored: set<string>
    const crypto: Crypto

    ghost function Me(): Actor {
      Protocol.Forwarder(channel)
    }

    /** What the protocol knows of the channel is what this forwarder is configured with. */
    ghost predicate Configured() {
      Bounded(shared.cfg) && channel in shared.cfg && shared.cfg[channel] == TargetOf(cfg.expectedStatus, backoff)
    }

    ghost predicate Valid()
      reads this, shared, shared.db
    {
      shared.Valid() && Configured()
    }

    constructor (shared: Shared, config: ChannelConfig, cfg: ForwardConfig, backoff: SafeBackoff,
                 ignored: set<string>, crypto: Crypto)
      requires shared.Valid() && Bounded(shared.cfg)
      requires config.name in shared.cfg && shared.cfg[config.name] == TargetOf(cfg.expectedStatus, backoff)
      ensures Valid() && this.shared == shared && this.channel == config.name
      ensures this.config == config && this.cfg == cfg && this.backoff == backoff
      ensures this.ignored == ignored && this.crypto == crypto
    {
      this.shared, this.channel := shared, config.name;
      this.config, this.cfg, this.backoff := config, cfg, backoff;
      this.ignored, this.crypto := ignored, crypto;
    }

    method IsPaused() returns (paused: bool)
      requires Valid()
      ensures paused <==> channel in shared.model.paused
    {
      paused := channel in shared.statuses && shared.statuses[channel].paused;
    }

    method RefreshQueueSize()
      requires Valid()
      modifies shared`statuses
      ensures Valid()
    {
      var counted := shared.db.CountByChannel(channel);
      if counted.Success? {
        shared.UpdateStatus(channel, (st: ChannelForwardStatus) => st.(queueSize := counted.value));
      }
    }

    method RefreshIfEmpty(peeked: Peeked)
      requires Valid()
      modifies shared`statuses
      ensures Valid()
    {
      if peeked.Nothing? {
        RefreshQueueSize();
      }
    }

    // ---- the steps each piece of code takes ----

    /** The answer has the channel's expected status. */
    predicate Meets(answer: Answer) {
      answer.Response? && answer.status == cfg.expectedStatus
    }

    /** One reply to a webhook of this body is dealt with: a delivery is deleted and drains, a
        failure is recorded, unless its preview kills the process; or nothing is sent, exactly
        if the body cannot be signed. */
    ghost predicate IsSending(steps: seq<Action>, outcome: Outcome, body: Bytes, reply: Reply) {
      var signs, delivered := cfg.signHeader.Some?, IsDelivery(reply.answer, cfg.expectedStatus);
      if signs && IsUnsignable(crypto, config, cfg, body) then
        steps == [Abandon(Me())] && outcome == Success(Idle)
      else if !delivered && reply.answer.Response? && CutsCharacter(reply.text) then
        steps == [] && outcome == Failure(NotACharBoundary)
      else
        (&& |steps| == 2 && steps[0].Respond? && steps[0].answer == reply.answer && outcome.Success?
         && if delivered then steps[1] == Forget(Me(), outcome.value == Drained)
            else steps[1].Park? && outcome.value == Idle && IsMessage(steps[0].message, reply))
    }

    /** One peek, and a send of the webhook it found, if any; the log says with which body. */
    ghost predicate IsPass(steps: seq<Action>, outcome: Outcome, log: map<nat, Content>) {
      && |steps| > 0 && steps[0].Peek?
      && if steps[0].peeked.Found? then
           && steps[0].peeked.id in log
           && exists reply :: IsSending(steps[1..], outcome, log[steps[0].peeked.id].payload, reply)
         else |steps| == 1 && outcome == Success(Idle)
    }

    /** A check, a pass unless the channel is paused, and a sleep unless the pass drained or
        the process died. */
    ghost predicate IsIteration(steps: seq<Action>, paused: bool, died: bool, log: map<nat, Content>) {
      && |steps| >= 2 && steps[0] == Check(channel)
      && var rest, last := steps[1..], |steps| - 1;
         if paused then rest == [Wake(channel)] && !died
         else if died then IsPass(rest, Failure(NotACharBoundary), log)
         else IsPass(rest, Success(Drained), log)
                || (steps[last] == Wake(channel) && IsPass(steps[1..last], Success(Idle), log))
    }

    /** What came of the pass, if the channel was not paused. */
    ghost predicate Passed(steps: seq<Action>, outcome: Outcome, paused: bool, log: map<nat, Content>) {
      if paused then steps == [] && outcome == Success(Idle) else IsPass(steps, outcome, log)
    }

    lemma {:induction false} IterationOf(pass: seq<Action>, rest: seq<Action>, outcome: Outcome, paused: bool,
                                         log: map<nat, Content>, more: map<nat, Content>)
      requires Passed(pass, outcome, paused, log) && Extends(log, more)
      requires rest == if outcome == Success(Idle) then [Wake(channel)] else []
      ensures IsIteration([Check(channel)] + pass + rest, paused, outcome.Failure?, more)
    {
      var steps := [Check(channel)] + pass + rest;
      assert steps[1..] == pass + rest;
      if outcome == Success(Idle) {
        assert steps[1..|steps| - 1] == pass;
      } else {
        assert pass + rest == pass;
      }
    }

    ghost predicate MayIterate(step: seq<Action>, died: bool, log: map<nat, Content>) {
      exists paused :: IsIteration(step, paused, died, log)
    }

    /** Iterations in a row, the last of which may end with the process. */
    ghost predicate AreIterations(steps: seq<seq<Action>>, died: bool, log: map<nat, Content>) {
      if steps == [] then !died
      else AreIterations(steps[..|steps| - 1], false, log) && MayIterate(steps[|steps| - 1], died, log)
    }

    lemma {:induction false} IterationsAppend(steps: seq<seq<Action>>, step: seq<Action>, paused: bool, died: bool,
                                              log: map<nat, Content>, before: seq<Action>)
      requires AreIterations(steps, false, log) && IsIteration(step, paused, died, log)
      ensures AreIterations(steps + [step], died, log)
      ensures before + Flatten(steps) + step == before + Flatten(steps + [step])
    {
      FlattenAppend(steps, step);
      assert (steps + [step])[..|steps|] == steps;
    }

    /** What was done with the webhooks of a log was done with those of a longer one. */
    lemma {:induction false} IterationsStay(steps: seq<seq<Action>>, died: bool, log: map<nat, Content>,
                                            more: map<nat, Content>)
      requires AreIterations(steps, died, log) && Extends(log, more)
      ensures AreIterations(steps, died, more)
    {
      if steps != [] {
        IterationsStay(steps[..|steps| - 1], false, log, more);
        var step := steps[|steps| - 1];
        var paused :| IsIteration(step, paused, died, log);
        assert IsIteration(step, paused, died, more);
      }
    }

    /** The run has grown, and these are the steps of this forwarder in it. */
    twostate predicate Took(steps: seq<Action>)
      reads shared
    {
      old(shared.trace) <= shared.trace && Own(shared.trace, Me()) == Own(old(shared.trace), Me()) + steps
    }

    // ---- the code ----

    /** One iteration of `run`: check the pause, then pass over the queue, then sleep
        unless a webhook was delivered. */
    method Iterate() returns (r: Result<(), Panic>, ghost steps: seq<Action>)
      requires Valid() && At(shared.model, channel, Checking)
      modifies shared, shared.db
      ensures Valid() && At(shared.model, channel, Checking)
      ensures Took(steps) && IsIteration(steps, channel in old(shared.model).paused, r.Failure?, shared.model.received)
    {
      var paused, now := CheckPause();
      var outcome: Outcome;
      ghost var pass: seq<Action>;
      outcome, pass := PassUnless(paused, now);
      ghost var log := shared.model.received;
      ghost var rest := SleepIfIdle(outcome);
      steps := [Check(channel)] + pass + rest;
      JoinThree(Own(old(shared.trace), Me()), [Check(channel)], pass, rest);
      IterationOf(pass, rest, outcome, paused, log, shared.model.received);
      r := if outcome.Failure? then Failure(outcome.error) else Success(());
    }

    method PassUnless(paused: bool, now: int) returns (outcome: Outcome, ghost steps: seq<Action>)
      requires Valid() && At(shared.model, channel, if paused then Sleeping else Peeking(now))
      modifies shared, shared.db
      ensures Valid() && At(shared.model, channel, LoopAfter(outcome))
      ensures Took(steps) && Passed(steps, outcome, paused, shared.model.received)
    {
      if paused {
        assert Own(shared.trace, Me()) == Own(shared.trace, Me()) + [];
        return Success(Idle), [];
      }
      outcome, steps := ForwardNext(now);
    }

    method CheckPause() returns (paused: bool, now: int)
      requires Valid() && At(shared.model, channel, Checking)
      modifies shared, shared.db
      ensures Valid() && At(shared.model, channel, if paused then Sleeping else Peeking(now))
      ensures Took([Check(channel)]) && (paused <==> channel in old(shared.model).paused)
    {
      paused := IsPaused();
      now := shared.clock;
      shared.TakeQuiet(Check(channel));
    }

    method SleepIfIdle(outcome: Outcome) returns (ghost steps: seq<Action>)
      requires Valid() && At(shared.model, channel, LoopAfter(outcome))
      modifies shared, shared.db
      ensures Valid() && At(shared.model, channel, Checking)
      ensures Took(steps) && steps == (if outcome == Success(Idle) then [Wake(channel)] else [])
      ensures Extends(old(shared.model.received), shared.model.received)
      ensures outcome == Success(Idle) ==> old(shared.clock) + cfg.intervalSeconds <= shared.clock
    {
      if outcome == Success(Idle) {
        SleepInterval();
        return [Wake(channel)];
      }
      assert Own(shared.trace, Me()) == Own(shared.trace, Me()) + [];
      return [];
    }

    method SleepInterval()
      requires Valid() && At(shared.model, channel, Sleeping)
      modifies shared, shared.db
      ensures Valid() && At(shared.model, channel, Checking)
      ensures Took([Wake(channel)]) && Extends(old(shared.model.received), shared.model.received)
      ensures old(shared.clock) + cfg.intervalSeconds <= shared.clock
    {
      ghost var trace := shared.trace;
      Rest();
      shared.TakeQuiet(Wake(channel));
      LogGrowsAlong(shared.cfg, shared.start, trace, shared.trace);
    }

    /** Time passes, and the others go on. */
    method Rest()
      requires Valid() && At(shared.model, channel, Sleeping)
      modifies shared, shared.db
      ensures Valid() && At(shared.model, channel, Sleeping)
      ensures old(shared.trace) <= shared.trace && Own(shared.trace, Me()) == Own(old(shared.trace), Me())
      ensures old(shared.clock) + cfg.intervalSeconds <= shared.clock
    {
      shared.Elapse(cfg.intervalSeconds);
      shared.Await(Me());
    }

    /** `run`, for as many iterations as it lives. */
    method Run(iterations: nat) returns (r: Result<(), Panic>, ghost steps: seq<seq<Action>>)
      requires Valid() && At(shared.model, channel, Checking)
      modifies shared, shared.db
      ensures Valid() && At(shared.model, channel, Checking)
      ensures AreIterations(steps, r.Failure?, shared.model.received)
      ensures |steps| <= iterations && (r.Success? ==> |steps| == iterations)
      ensures Took(Flatten(steps))
    {
      ghost var before := Own(shared.trace, Me());
      RefreshQueueSize();
      steps := [];
      assert before == before + [];
      for i := 0 to iterations
        invariant Valid() && At(shared.model, channel, Checking)
        invariant AreIterations(steps, false, shared.model.received) && |steps| == i
        invariant old(shared.trace) <= shared.trace && Own(shared.trace, Me()) == before + Flatten(steps)
      {
        ghost var paused, trace, log := channel in shared.model.paused, shared.trace, shared.model.received;
        ghost var step: seq<Action>;
        r, step := Iterate();
        LogGrowsAlong(shared.cfg, shared.start, trace, shared.trace);
        IterationsStay(steps, false, log, shared.model.received);
        IterationsAppend(steps, step, paused, r.Failure?, shared.model.received, before);
        steps := steps + [step];
        if r.Failure? {
          return;
        }
      }
      r := Success(());
    }

    method ForwardNext(now: int) returns (outcome: Outcome, ghost steps: seq<Action>)
      requires Valid() && At(shared.model, channel, Peeking(now))
      modifies shared, shared.db
      ensures Valid() && At(shared.model, channel, LoopAfter(outcome))
      ensures Took(steps) && IsPass(steps, outcome, shared.model.received)
    {
      var peeked := PeekQueue(now);
      steps := [Peek(channel, peeked)];
      if peeked.Found? {
        ghost var sending: seq<Action>;
        outcome, sending := SendLogged(peeked.id, shared.db.rows[peeked.id]);
        JoinTwo(Own(old(shared.trace), Me()), steps, sending);
        steps := steps + sending;
      } else {
        RefreshIfEmpty(peeked);
        outcome := Success(Idle);
      }
    }

    /** Sends the webhook that was just peeked. */
    method SendLogged(id: nat, webhook: Row) returns (outcome: Outcome, ghost steps: seq<Action>)
      requires Valid() && channel in shared.model.loops && InFlight(shared.model, Me())
      requires FlightOf(shared.model, Me()) == Sending(id, webhook) && webhook.content.channel == channel
      requires id in shared.model.received && shared.model.received[id] == webhook.content
      modifies shared, shared.db
      ensures Valid() && At(shared.model, channel, LoopAfter(outcome))
      ensures Took(steps) && IsPass([Peek(channel, Found(id))] + steps, outcome, shared.model.received)
    {
      ghost var trace := shared.trace;
      ghost var reply: Reply;
      outcome, steps, reply := Send(id, webhook);
      LogGrowsAlong(shared.cfg, shared.start, trace, shared.trace);
      assert ([Peek(channel, Found(id))] + steps)[1..] == steps;
    }

    method PeekQueue(now: int) returns (peeked: Peeked)
      requires Valid() && At(shared.model, channel, Peeking(now))
      modifies shared, shared.db
      ensures Valid() && Took([Peek(channel, peeked)])
      ensures !peeked.Found? ==> At(shared.model, channel, Sleeping)
      ensures peeked.Found? ==>
                && peeked.id in shared.db.rows && shared.db.rows[peeked.id].content.channel == channel
                && channel in shared.model.loops && InFlight(shared.model, Me())
                && FlightOf(shared.model, Me()) == Sending(peeked.id, shared.db.rows[peeked.id])
                && peeked.id in shared.model.received
                && shared.model.received[peeked.id] == shared.db.rows[peeked.id].content
    {
      shared.Await(Me());
      var answer := shared.db.PeekOldestDueByChannel(channel, now);
      peeked := if answer.Failure? then Unanswered
                else if answer.value.None? then Nothing
                else Found(answer.value.value);
      shared.TakeQuiet(Peek(channel, peeked));
      if peeked.Found? {
        RowIsLogged(shared.cfg, shared.start, shared.trace, peeked.id);
      }
    }

    method Send(id: nat, webhook: Row) returns (outcome: Outcome, ghost steps: seq<Action>, ghost reply: Reply)
      requires Valid() && channel in shared.model.loops && InFlight(shared.model, Me())
      requires FlightOf(shared.model, Me()) == Sending(id, webhook) && webhook.content.channel == channel
      modifies shared, shared.db
      ensures Valid() && At(shared.model, channel, LoopAfter(outcome))
      ensures Took(steps) && IsSending(steps, outcome, webhook.content.payload, reply)
    {
      var request := ForwarderRequest(webhook.content, config, cfg, ignored, crypto);
      if request.None? {
        shared.TakeQuiet(Abandon(Me()));
        return Success(Idle), [Abandon(Me())], Reply(NetworkError, "");
      }
      shared.Await(Me());
      var response := SendRequest(request.value, webhook.content, config, cfg, ignored, crypto);
      reply := response;
      if Meets(response.answer) {
        var progress: Progress;
        progress, steps := OnExpected(id, webhook, response.answer);
        outcome := Success(progress);
      } else {
        var recorded: Result<(), Panic>;
        recorded, steps := OnUnexpected(id, webhook, response);
        outcome := if recorded.Success? then Success(Idle) else Failure(recorded.error);
      }
    }

    method OnExpected(id: nat, webhook: Row, answer: Answer) returns (progress: Progress, ghost steps: seq<Action>)
      requires Valid() && channel in shared.model.loops && InFlight(shared.model, Me())
      requires FlightOf(shared.model, Me()) == Sending(id, webhook) && webhook.content.channel == channel
      requires Meets(answer)
      modifies shared, shared.db
      ensures Valid() && At(shared.model, channel, LoopAfter(Success(progress)))
      ensures Took(steps) && |steps| == 2
      ensures steps[0].Respond? && steps[0].answer == answer && steps[1] == Forget(Me(), progress == Drained)
    {
      ghost var response := Respond(Me(), answer, 0.0, "");
      shared.TakeQuiet(response);
      progress := OnDelivered(id);
      steps := [response, Forget(Me(), progress == Drained)];
    }

    /** The failure is recorded, or the process dies over it and nothing is. */
    method OnUnexpected(id: nat, webhook: Row, reply: Reply) returns (r: Result<(), Panic>, ghost steps: seq<Action>)
      requires Valid() && channel in shared.model.loops && InFlight(shared.model, Me())
      requires FlightOf(shared.model, Me()) == Sending(id, webhook) && webhook.content.channel == channel
      requires !Meets(reply.answer)
      modifies shared, shared.db
      ensures Valid() && Took(steps) && (r.Failure? <==> reply.answer.Response? && CutsCharacter(reply.text))
      ensures At(shared.model, channel, if r.Failure? then Checking else Sleeping)
      ensures if r.Failure? then steps == [] && r.error == NotACharBoundary
              else
                && |steps| == 2 && steps[0].Respond? && steps[0].answer == reply.answer && steps[1].Park?
                && IsMessage(steps[0].message, reply)
    {
      shared.Await(Me());
      var message := Describe(reply);
      DescribesFailure(reply);
      if message.Failure? {
        shared.Abort();
        assert Own(shared.trace, Me()) == Own(shared.trace, Me()) + [];
        return Failure(message.error), [];
      }
      ghost var unit: real;
      steps, unit := RecordFailure(id, webhook, reply.answer, message.value);
      r := Success(());
    }

    method OnDelivered(id: nat) returns (progress: Progress)
      requires Valid() && channel in shared.model.loops && InFlight(shared.model, Me())
      requires FlightOf(shared.model, Me()).Delivered? && FlightOf(shared.model, Me()).id == id
      modifies shared, shared.db
      ensures Valid() && At(shared.model, channel, LoopAfter(Success(progress)))
      ensures Took([Forget(Me(), progress == Drained)])
      ensures channel in shared.statuses ==> shared.statuses[channel].lastSuccessAt == Some(shared.clock)
    {
      shared.Await(Me());
      ghost var before := shared.db.View();
      var removed := shared.db.DeleteById(id);
      shared.TakeStored(Forget(Me(), removed.Success?), before);
      var now := shared.clock;
      shared.UpdateStatus(channel, (st: ChannelForwardStatus) =>
        st.(lastSuccessAt := Some(now), queueSize := if st.queueSize > 1 then st.queueSize - 1 else 0));
      return if removed.Failure? then Idle else Drained;
    }

    /** Computes the due time from the attempt count that was read, parks the webhook until
        then and reports it at the attempt that crosses the threshold. */
    method RecordFailure(id: nat, webhook: Row, answer: Answer, message: string)
      returns (ghost steps: seq<Action>, ghost unit: real)
      requires Valid() && channel in shared.model.loops && InFlight(shared.model, Me())
      requires FlightOf(shared.model, Me()) == Sending(id, webhook) && webhook.content.channel == channel
      requires !Meets(answer)
      modifies shared, shared.db
      ensures Valid() && At(shared.model, channel, Sleeping)
      ensures Took(steps) && |steps| == 2
      ensures steps[0] == Respond(Me(), answer, unit, message) && steps[1].Park?
      ensures steps[1].ok && id in shared.db.rows ==>
                var delay := WholeDelay(backoff, KindOf(answer), webhook.attempts + 1, RequestedDelay(answer), unit);
                IsParked(shared.db.rows[id], DueAt(old(shared.clock), delay), message)
      ensures steps[1].ok && id in shared.db.rows && old(shared.clock) + backoff.max < TWO_TO_63 ==>
                && shared.db.rows[id].nextAt.Some?
                && IsDueAfter(backoff, answer, webhook.attempts + 1, old(shared.clock), shared.db.rows[id].nextAt.value)
      ensures channel in shared.statuses ==> ShowsFailure(shared.statuses[channel], shared.clock, message)
    {
      var jitter: real := *;
      var delay := WholeDelay(backoff, KindOf(answer), webhook.attempts + 1, RequestedDelay(answer), jitter);
      var nextAt := DueAt(shared.clock, delay);
      unit := jitter;
      if shared.clock + backoff.max < TWO_TO_63 {
        DueByAnswer(backoff, answer, webhook.attempts + 1, jitter, shared.clock);
      }
      steps := StoreRefusal(id, webhook, answer, unit, nextAt, message);
      ShowFailure(shared, channel, message);
    }

    method StoreRefusal(id: nat, webhook: Row, ghost answer: Answer, ghost unit: real, nextAt: int, message: string)
      returns (ghost steps: seq<Action>)
      requires Valid() && channel in shared.model.loops && InFlight(shared.model, Me())
      requires FlightOf(shared.model, Me()) == Sending(id, webhook) && webhook.content.channel == channel
      requires !Meets(answer) && nextAt == DueAt(shared.clock, DelayOf(shared.cfg[channel], webhook, answer, unit))
      modifies shared, shared.db
      ensures Valid() && At(shared.model, channel, Sleeping)
      ensures Took(steps) && |steps| == 2
      ensures steps[0] == Respond(Me(), answer, unit, message) && steps[1].Park?
      ensures steps[1].ok && id in shared.db.rows ==> IsParked(shared.db.rows[id], nextAt, message)
    {
      ghost var response := Respond(Me(), answer, unit, message);
      shared.TakeQuiet(response);
      ghost var park := StoreFailure(id, webhook, nextAt, message);
      steps := [response, park];
    }

    method StoreFailure(id: nat, webhook: Row, nextAt: int, message: string) returns (ghost park: Action)
      requires Valid() && channel in shared.model.loops && InFlight(shared.model, Me())
      requires FlightOf(shared.model, Me()) == Refused(id, webhook, shared.clock, nextAt, message)
      modifies shared, shared.db
      ensures Valid() && At(shared.model, channel, Sleeping)
      ensures park.Park? && Took([park])
      ensures park.ok && id in shared.db.rows ==> IsParked(shared.db.rows[id], nextAt, message)
    {
      var at := shared.clock;
      shared.Await(Me());
      ghost var before := shared.db.View();
      park := WriteFailure(id, webhook, at, nextAt, message);
      shared.TakeParked(park, before);
    }

    method WriteFailure(id: nat, webhook: Row, at: int, nextAt: int, message: string) returns (ghost park: Action)
      requires Valid() && InFlight(shared.model, Me()) && at <= shared.clock
      requires FlightOf(shared.model, Me()) == Refused(id, webhook, at, nextAt, message)
      modifies shared`stuckReports, shared.db
      ensures park.Park? && park.who == Me() && Enabled(shared.cfg, shared.model, park)
      ensures shared.db.View() == NextTable(shared.cfg, shared.model, park)
      ensures shared.stuckReports == Apply(shared.cfg, shared.model, park).stuck
      ensures park.ok && id in shared.db.rows ==> IsParked(shared.db.rows[id], nextAt, message)
    {
      var recorded := shared.db.RecordForwardFailure(id, at, message, nextAt);
      park := Park(Me(), recorded.Success?, at);
      if CrossedStuckThreshold(webhook.attempts) {
        shared.stuckReports := shared.stuckReports + multiset{id};
      }
    }
  }

  method ShowFailure(shared: Shared, channel: string, message: string)
    requires shared.Valid()
    modifies shared`statuses
    ensures shared.Valid()
    ensures channel in shared.statuses ==> ShowsFailure(shared.statuses[channel], shared.clock, message)
  {
    var now := shared.clock;
    shared.UpdateStatus(channel, (st: ChannelForwardStatus) =>
      st.(lastErrorAt := Some(now), lastErrorMessage := Some(message)));
  }

  /** The status of the channel shows this failure as its last one. */
  predicate ShowsFailure(status: ChannelForwardStatus, now: int, message: string) {
    status.lastErrorAt == Some(now) && status.lastErrorMessage == Some(message)
  }

  lemma {:induction false} DescribesFailure(reply: Reply)
    ensures Describe(reply).Success? ==> IsMessage(Describe(reply).value, reply)
    ensures Describe(reply).Failure? ==> Describe(reply).error == NotACharBoundary
    ensures Describe(reply).Failure? <==> reply.answer.Response? && CutsCharacter(reply.text)
  {
    PreviewIsExact(reply.text);
  }

  /** The row shows this failure as its last one. */
  predicate IsParked(row: Row, nextAt: int, message: string) {
    row.nextAt == Some(nextAt) && row.lastError == Some(message) && row.lastAt.Some?
  }

  lemma {:induction false} JoinTwo<T>(s: seq<T>, a: seq<T>, b: seq<T>)
    ensures s + a + b == s + (a + b)
  {
  }

  lemma {:induction false} JoinThree<T>(s: seq<T>, a: seq<T>, b: seq<T>, c: seq<T>)
    ensures s + a + b + c == s + (a + b + c)
    ensures b == [] ==> s + a + c == s + (a + b + c)
  {
  }

  function Flatten(steps: seq<seq<Action>>): seq<Action> {
    if steps == [] then [] else Flatten(steps[..|steps| - 1]) + steps[|steps| - 1]
  }

  lemma {:induction false} FlattenAppend(steps: seq<seq<Action>>, step: seq<Action>)
    ensures Flatten(steps + [step]) == Flatten(steps) + step
  {
    assert (steps + [step])[..|steps|] == steps;
  }

  /** What comes back is the environment's choice; nothing goes out but the request that is
      specified for the webhook. */
  method SendRequest(request: Request, ghost webhook: Content, ghost config: ChannelConfig, ghost cfg: ForwardConfig,
                     ghost ignored: set<string>, ghost crypto: Crypto) returns (reply: Reply)
    requires IsForwardOf(request, webhook, config, cfg, ignored, crypto)
  {
    reply := *;
  }
}
