/** The webhook queue as a step protocol over one table.

    Receivers, one forwarder per channel, manual retries, polls and the operator
    interleave. Every database call is one atomic step that takes effect or fails and
    changes nothing (`LockRetry` justifies that); the HTTP send lies between steps, so
    what an actor holds in flight may be stale by the time it writes. All choices the
    environment makes are part of the action, so `Apply` is a function. */
module Protocol {
  import opened Wrappers
  import opened Backoff
  import opened Webhooks

  const READ_LIMIT: nat := 1000
  const STUCK_ATTEMPTS_THRESHOLD: int := 10

  /** The whole seconds to wait after a failure, by kind, attempt number, requested delay
      and jitter. The protocol holds for every schedule bounded by its ceiling;
      `Schedules` supplies the one the program computes. */
  type Schedule = (FailureKind, int, Option<nat>, real) -> nat

  /** What the `forward` block of a channel says about a delivery. */
  datatype Target = Target(expectedStatus: nat, max: nat, delay: Schedule)

  /** The channels that have a `forward` block. */
  type Config = map<string, Target>

  ghost predicate Bounded(cfg: Config) {
    forall c, kind, attempts, retryAfter, unit ::
      c in cfg ==> cfg[c].delay(kind, attempts, retryAfter, unit) <= cfg[c].max
  }

  /** No due time computed before `until` overflows. */
  ghost predicate FitsUntil(cfg: Config, until: int) {
    forall c :: c in cfg ==> until + cfg[c].max < TWO_TO_63
  }

  /** Whoever sends a webhook to its target: the channel's forwarder or one manual retry. */
  datatype Actor = Forwarder(channel: string) | Retry(task: nat)

  /** Where the loop of a forwarder is; `now` is the time its peek will ask for. */
  datatype Loop = Checking | Peeking(now: int) | Flying | Sleeping

  /** A webhook in flight, with the row as it was read. */
  datatype Flight =
    | Sending(id: nat, sent: Row)
    | Delivered(id: nat, sent: Row)
    | Refused(id: nat, sent: Row, refusedAt: int, nextAt: int, message: string)

  /** What comes back from the target. */
  datatype Answer = NetworkError | Response(status: nat, retryAfter: Option<nat>)

  datatype Peeked = Unanswered | Nothing | Found(id: nat)

  /** Why a row left the table. */
  datatype Cause = ByForwarder | ByRetry(task: nat) | ByPoll | ByClear | ByDiscard

  datatype State = State(
    // the database
    table: Table,
    // the process's memory
    paused: set<string>,
    loops: map<string, Loop>,
    flights: map<Actor, Flight>,
    clock: nat,
    // the log of the run: what was answered 200, what has left the table since, the
    // manual retries with the id each loaded, and those the target accepted
    received: map<nat, Content>,
    gone: map<nat, Cause>,
    started: map<nat, nat>,
    accepted: set<nat>,
    // counts by id: expected answers to the forwarder, its failed deletes, failures
    // written to a row, the forwarder's failed records and its stuck reports
    forwarded: multiset<nat>,
    failedDeletes: multiset<nat>,
    recorded: multiset<nat>,
    failedRecords: multiset<nat>,
    stuck: multiset<nat>,
    restarts: nat)

  datatype Action =
    | Receive(id: nat, content: Content)
    | Check(channel: string)
    | Peek(channel: string, peeked: Peeked)
    | Load(task: nat, id: nat)
    | Abandon(who: Actor)
    | Respond(who: Actor, answer: Answer, unit: real, message: string)
    | Forget(who: Actor, ok: bool)
    | Park(who: Actor, ok: bool, at: int)
    | Wake(channel: string)
    | Poll(channel: string, ids: set<nat>)
    | Clear(channel: string)
    | Discard(id: nat)
    | Pause(channel: string)
    | Resume(channel: string)
    | Tick(seconds: nat)
    | Restart

  function Initial(cfg: Config, clock: nat): State {
    State(Table(map[], 0), {}, map c | c in cfg :: Checking, map[], clock, map[], map[], map[], {},
          multiset{}, multiset{}, multiset{}, multiset{}, multiset{}, 0)
  }

  // ---- when an action can happen ----

  predicate At(s: State, channel: string, loop: Loop) {
    channel in s.loops && s.loops[channel] == loop
  }

  predicate InFlight(s: State, who: Actor) {
    who in s.flights
  }

  function FlightOf(s: State, who: Actor): Flight
    requires InFlight(s, who)
  {
    s.flights[who]
  }

  function ChannelOf(f: Flight): string {
    f.sent.content.channel
  }

  predicate Answers(s: State, channel: string, peeked: Peeked) {
    && channel in s.loops && s.loops[channel].Peeking?
    && match peeked
       case Unanswered => true
       case Nothing => NothingDue(s.table, channel, s.loops[channel].now)
       case Found(id) => IsOldestDue(s.table, channel, s.loops[channel].now, id)
  }

  predicate Enabled(cfg: Config, s: State, a: Action) {
    match a
    case Receive(id, content) => s.table.highWater < id
    case Check(c) => At(s, c, Checking)
    case Peek(c, peeked) => Answers(s, c, peeked)
    case Load(task, id) =>
      task !in s.started && id in s.table.rows && s.table.rows[id].content.channel in cfg
    case Abandon(who) => InFlight(s, who) && FlightOf(s, who).Sending?
    case Respond(who, answer, unit, message) =>
      InFlight(s, who) && FlightOf(s, who).Sending? && ChannelOf(FlightOf(s, who)) in cfg
    case Forget(who, ok) => InFlight(s, who) && FlightOf(s, who).Delivered?
    case Park(who, ok, at) =>
      InFlight(s, who) && FlightOf(s, who).Refused? && FlightOf(s, who).refusedAt <= at <= s.clock
    case Wake(c) => At(s, c, Sleeping)
    case Poll(c, ids) => IsOldestBatch(s.table, c, READ_LIMIT, ids)
    case Pause(c) => c in cfg
    case Resume(c) => c in cfg
    case _ => true
  }

  // ---- what an action does, one component at a time ----

  predicate IsExpected(target: Target, answer: Answer) {
    answer.Response? && answer.status == target.expectedStatus
  }

  /** How a failure is classified and which delay the target asked for. */
  function KindOf(answer: Answer): FailureKind {
    match answer
    case NetworkError => Transient
    case Response(status, _) => ClassifyStatus(status)
  }

  function RequestedDelay(answer: Answer): Option<nat> {
    match answer
    case NetworkError => None
    case Response(_, retryAfter) => retryAfter
  }

  /** The delay counts the attempts of the row as it was read before the send. */
  function DelayOf(target: Target, sent: Row, answer: Answer, unit: real): nat {
    target.delay(KindOf(answer), sent.attempts + 1, RequestedDelay(answer), unit)
  }

  /** What becomes of a flight once the target has answered at `now`. */
  function Answered(target: Target, f: Flight, answer: Answer, unit: real, message: string, now: nat): Flight {
    if IsExpected(target, answer) then Delivered(f.id, f.sent)
    else Refused(f.id, f.sent, now, DueAt(now, DelayOf(target, f.sent, answer, unit)), message)
  }

  /** The statements that delete rows and succeed. */
  predicate Removes(a: Action) {
    (a.Forget? && a.ok) || a.Poll? || a.Clear? || a.Discard?
  }

  /** The ids such a statement names. */
  function Taken(s: State, a: Action): set<nat>
    requires a.Forget? ==> InFlight(s, a.who)
  {
    match a
    case Forget(who, ok) => if ok then {FlightOf(s, who).id} else {}
    case Poll(c, ids) => ids
    case Clear(c) => InChannel(s.table, c)
    case Discard(id) => {id}
    case _ => {}
  }

  function CauseOf(a: Action): Cause {
    match a
    case Forget(Retry(task), _) => ByRetry(task)
    case Forget(Forwarder(_), _) => ByForwarder
    case Poll(_, _) => ByPoll
    case Clear(_) => ByClear
    case _ => ByDiscard
  }

  function NextTable(cfg: Config, s: State, a: Action): Table
    requires Enabled(cfg, s, a)
  {
    match a
    case Receive(id, content) => Insert(s.table, id, content)
    case Park(who, ok, at) =>
      var f := FlightOf(s, who);
      if ok then RecordFailure(s.table, f.id, at, f.message, f.nextAt) else s.table
    case _ => if Removes(a) then Remove(s.table, Taken(s, a)) else s.table
  }

  function NextGone(cfg: Config, s: State, a: Action): map<nat, Cause>
    requires Enabled(cfg, s, a)
  {
    if Removes(a) then s.gone + map id | id in Taken(s, a) && id in s.table.rows :: CauseOf(a) else s.gone
  }

  /** Where a forwarder goes on once it has nothing in flight any more. */
  function Landed(loops: map<string, Loop>, who: Actor, loop: Loop): map<string, Loop> {
    match who
    case Forwarder(c) => loops[c := loop]
    case Retry(_) => loops
  }

  function NextLoops(cfg: Config, s: State, a: Action): map<string, Loop>
    requires Enabled(cfg, s, a)
  {
    match a
    case Check(c) => s.loops[c := if c in s.paused then Sleeping else Peeking(s.clock)]
    case Peek(c, peeked) => s.loops[c := if peeked.Found? then Flying else Sleeping]
    case Abandon(who) => Landed(s.loops, who, Sleeping)
    case Forget(who, ok) => Landed(s.loops, who, if ok then Checking else Sleeping)
    case Park(who, _, _) => Landed(s.loops, who, Sleeping)
    case Wake(c) => s.loops[c := Checking]
    case Restart => map c | c in s.loops :: Checking
    case _ => s.loops
  }

  function NextFlights(cfg: Config, s: State, a: Action): map<Actor, Flight>
    requires Enabled(cfg, s, a)
  {
    match a
    case Peek(c, Found(id)) => s.flights[Forwarder(c) := Sending(id, s.table.rows[id])]
    case Load(task, id) => s.flights[Retry(task) := Sending(id, s.table.rows[id])]
    case Abandon(who) => s.flights - {who}
    case Respond(who, answer, unit, message) =>
      var f := FlightOf(s, who);
      s.flights[who := Answered(cfg[ChannelOf(f)], f, answer, unit, message, s.clock)]
    case Forget(who, _) => s.flights - {who}
    case Park(who, _, _) => s.flights - {who}
    case Restart => map[]
    case _ => s.flights
  }

  /** The actor's request has just met the expected status. */
  predicate Delivers(cfg: Config, s: State, a: Action)
    requires Enabled(cfg, s, a)
  {
    a.Respond? && IsExpected(cfg[ChannelOf(FlightOf(s, a.who))], a.answer)
  }

  /** A forwarder reports a webhook at the one attempt that crosses the threshold. */
  predicate CrossedStuckThreshold(attemptsBefore: int) {
    attemptsBefore + 1 == STUCK_ATTEMPTS_THRESHOLD
  }

  /** Counts the webhook in flight once more if `counts` holds. */
  function Count(n: multiset<nat>, s: State, a: Action, counts: bool): multiset<nat>
    requires counts ==> (a.Respond? || a.Forget? || a.Park?) && InFlight(s, a.who)
  {
    if counts then n + multiset{FlightOf(s, a.who).id} else n
  }

  function Apply(cfg: Config, s: State, a: Action): State
    requires Enabled(cfg, s, a)
  {
    State(
      NextTable(cfg, s, a),
      match a
      case Pause(c) => s.paused + {c}
      case Resume(c) => s.paused - {c}
      case Restart => {}
      case _ => s.paused,
      NextLoops(cfg, s, a),
      NextFlights(cfg, s, a),
      if a.Tick? then s.clock + a.seconds else s.clock,
      if a.Receive? then s.received[a.id := a.content] else s.received,
      NextGone(cfg, s, a),
      if a.Load? then s.started[a.task := a.id] else s.started,
      if Delivers(cfg, s, a) && a.who.Retry? then s.accepted + {a.who.task} else s.accepted,
      Count(s.forwarded, s, a, Delivers(cfg, s, a) && a.who.Forwarder?),
      Count(s.failedDeletes, s, a, a.Forget? && !a.ok && a.who.Forwarder?),
      Count(s.recorded, s, a, a.Park? && a.ok && FlightOf(s, a.who).id in s.table.rows),
      Count(s.failedRecords, s, a, a.Park? && !a.ok && a.who.Forwarder?),
      Count(s.stuck, s, a, a.Park? && a.who.Forwarder? && CrossedStuckThreshold(FlightOf(s, a.who).sent.attempts)),
      if a.Restart? then s.restarts + 1 else s.restarts)
  }

  /** The action is a step of this actor. */
  predicate IsBy(a: Action, who: Actor) {
    match a
    case Check(c) => who == Forwarder(c)
    case Peek(c, _) => who == Forwarder(c)
    case Load(task, _) => who == Retry(task)
    case Abandon(mover) => who == mover
    case Respond(mover, _, _, _) => who == mover
    case Forget(mover, _) => who == mover
    case Park(mover, _, _) => who == mover
    case Wake(c) => who == Forwarder(c)
    case _ => false
  }

  /** The steps an actor took in a run, in order. */
  function Own(acts: seq<Action>, who: Actor): seq<Action> {
    if acts == [] then []
    else
      var before := Own(acts[..|acts| - 1], who);
      if IsBy(acts[|acts| - 1], who) then before + [acts[|acts| - 1]] else before
  }

  lemma {:induction false} OwnAppend(acts: seq<Action>, a: Action)
    ensures forall who :: Own(acts + [a], who) == if IsBy(a, who) then Own(acts, who) + [a] else Own(acts, who)
  {
    assert (acts + [a])[..|acts|] == acts;
  }

  /** Steps that touch neither the table nor the clock, the pauses or the reports. */
  predicate IsQuiet(a: Action) {
    a.Check? || a.Peek? || a.Load? || a.Abandon? || a.Respond? || a.Wake?
  }

  lemma {:induction false} QuietStep(cfg: Config, s: State, a: Action)
    requires Enabled(cfg, s, a) && IsQuiet(a)
    ensures var s' := Apply(cfg, s, a);
            s'.table == s.table && s'.paused == s.paused && s'.clock == s.clock && s'.stuck == s.stuck
            && s'.received == s.received && s'.gone == s.gone
  {
  }

  lemma {:induction false} TickStep(cfg: Config, s: State, seconds: nat)
    ensures Apply(cfg, s, Tick(seconds)) == s.(clock := s.clock + seconds)
  {
  }

  // ---- runs ----

  predicate IsRun(cfg: Config, s: State, acts: seq<Action>)
    decreases |acts|
  {
    acts == [] || (Enabled(cfg, s, acts[0]) && IsRun(cfg, Apply(cfg, s, acts[0]), acts[1..]))
  }

  function Run(cfg: Config, s: State, acts: seq<Action>): State
    requires IsRun(cfg, s, acts)
    decreases |acts|
  {
    if acts == [] then s else Run(cfg, Apply(cfg, s, acts[0]), acts[1..])
  }

  lemma {:induction false} ClockGrows(cfg: Config, s: State, acts: seq<Action>)
    requires IsRun(cfg, s, acts)
    ensures s.clock <= Run(cfg, s, acts).clock
    decreases |acts|
  {
    if acts != [] {
      ClockGrows(cfg, Apply(cfg, s, acts[0]), acts[1..]);
    }
  }

  /** A run may be cut anywhere. */
  lemma {:induction false} RunSplits(cfg: Config, s: State, acts: seq<Action>, more: seq<Action>)
    ensures IsRun(cfg, s, acts + more) <==> IsRun(cfg, s, acts) && IsRun(cfg, Run(cfg, s, acts), more)
    ensures IsRun(cfg, s, acts + more) ==>
              Run(cfg, s, acts + more) == Run(cfg, Run(cfg, s, acts), more)
    decreases |acts|
  {
    if acts == [] {
      assert acts + more == more;
    } else {
      assert (acts + more)[1..] == acts[1..] + more;
      if Enabled(cfg, s, acts[0]) {
        RunSplits(cfg, Apply(cfg, s, acts[0]), acts[1..], more);
      }
    }
  }
}
